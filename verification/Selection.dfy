/** Choice of the UTXOs that fund an asset, over the wallet's view of its unspent outputs. */
module Selection {

  import opened Common
  import opened Assignments

  datatype LocalRgbAllocation = LocalRgbAllocation(
    asset: Option<AssetId>, assignment: Assignment, status: TransferStatus, incoming: bool, txoSpent: bool)
  {
    predicate SettledOf(a: AssetId)
    {
      asset == Some(a) && status.Settled?
    }

    /** Counted in the settled balance. */
    predicate IsSettled()
    {
      (!txoSpent && incoming && status.Settled?) || (txoSpent && !incoming && status.WaitingConfirmations?)
    }

    /** The batch that made it holds its UTXO until broadcast or failure. */
    predicate Reserves()
    {
      !incoming && (status.Initiated? || status.WaitingCounterparty?)
    }
  }

  datatype LocalUnspent = LocalUnspent(
    outpoint: Outpoint, spent: bool, exists_: bool, pendingWitness: bool, btcAmount: nat,
    allocations: seq<LocalRgbAllocation>, pendingBlinded: nat)

  datatype AssetSpend = AssetSpend(inputs: seq<LocalUnspent>, collected: AssignmentsCollection, inputBtc: nat)

  ghost predicate DistinctOutpoints(us: seq<LocalUnspent>)
  {
    forall i, j | 0 <= i < j < |us| :: us[i].outpoint != us[j].outpoint
  }

  // ---------------------------------------------------------------- what a UTXO holds

  function SettledFilter(asset: AssetId): LocalRgbAllocation -> bool
  {
    (a: LocalRgbAllocation) => a.SettledOf(asset)
  }

  function FungibleAmounts(): LocalRgbAllocation -> int
  {
    (a: LocalRgbAllocation) => a.assignment.FungibleAmount()
  }

  function InflationAmounts(): LocalRgbAllocation -> int
  {
    (a: LocalRgbAllocation) => a.assignment.InflationAmount()
  }

  function NonFungibles(): LocalRgbAllocation -> int
  {
    (a: LocalRgbAllocation) => if a.assignment.NonFungible? then 1 else 0
  }

  /** Settled fungible amount of the asset hosted by a UTXO. */
  function FungibleOn(asset: AssetId): LocalUnspent -> int
  {
    (u: LocalUnspent) => Sum(Filter(u.allocations, SettledFilter(asset)), FungibleAmounts())
  }

  function InflationOn(asset: AssetId): LocalUnspent -> int
  {
    (u: LocalUnspent) => Sum(Filter(u.allocations, SettledFilter(asset)), InflationAmounts())
  }

  function NonFungibleOn(asset: AssetId): LocalUnspent -> int
  {
    (u: LocalUnspent) => Sum(Filter(u.allocations, SettledFilter(asset)), NonFungibles())
  }

  ghost predicate SomeNonFungible(asset: AssetId, us: seq<LocalUnspent>)
  {
    Sum(us, NonFungibleOn(asset)) > 0
  }

  /** Colorings never carry the wildcard assignment. */
  ghost predicate Concrete(asset: AssetId, us: seq<LocalUnspent>)
  {
    forall u, a | u in us && a in Filter(u.allocations, SettledFilter(asset)) :: !a.assignment.Any?
  }

  /** Everything of the asset that the given UTXOs hold. */
  ghost predicate IsTotal(asset: AssetId, us: seq<LocalUnspent>, c: AssignmentsCollection)
  {
    && c.fungible == Sum(us, FungibleOn(asset))
    && c.inflation == Sum(us, InflationOn(asset))
    && (c.nonFungible <==> SomeNonFungible(asset, us))
  }

  /** The asset's schema: either non-fungible pieces are asked for, or the asset has none. */
  ghost predicate KindsMatch(asset: AssetId, needed: AssignmentsCollection, us: seq<LocalUnspent>)
  {
    needed.nonFungible || !SomeNonFungible(asset, us)
  }

  /** The given UTXOs hold what is needed. */
  ghost predicate Suffices(asset: AssetId, needed: AssignmentsCollection, us: seq<LocalUnspent>)
  {
    && needed.fungible <= Sum(us, FungibleOn(asset))
    && needed.inflation <= Sum(us, InflationOn(asset))
    && (needed.nonFungible ==> SomeNonFungible(asset, us))
  }

  lemma HostedNonNegative(asset: AssetId, u: LocalUnspent)
    ensures FungibleOn(asset)(u) >= 0 && InflationOn(asset)(u) >= 0 && NonFungibleOn(asset)(u) >= 0
  {
    SumNonNegative(Filter(u.allocations, SettledFilter(asset)), FungibleAmounts());
    SumNonNegative(Filter(u.allocations, SettledFilter(asset)), InflationAmounts());
    SumNonNegative(Filter(u.allocations, SettledFilter(asset)), NonFungibles());
  }

  lemma AmountsNonNegative(asset: AssetId, us: seq<LocalUnspent>)
    ensures Sum(us, FungibleOn(asset)) >= 0
    ensures Sum(us, InflationOn(asset)) >= 0
    ensures Sum(us, NonFungibleOn(asset)) >= 0
  {
    forall u | u in us
      ensures FungibleOn(asset)(u) >= 0 && InflationOn(asset)(u) >= 0 && NonFungibleOn(asset)(u) >= 0
    {
      HostedNonNegative(asset, u);
    }
    SumNonNegative(us, FungibleOn(asset));
    SumNonNegative(us, InflationOn(asset));
    SumNonNegative(us, NonFungibleOn(asset));
  }

  // ---------------------------------------------------------------- selection

  /** UTXOs that a transfer may spend. */
  predicate InputUnspent(u: LocalUnspent)
  {
    && !(exists a | a in u.allocations :: a.incoming && a.status.Pending())
    && !(exists a | a in u.allocations :: a.Reserves())
    && !u.pendingWitness
    && u.pendingBlinded == 0
    && u.exists_
  }

  function GetInputUnspents(us: seq<LocalUnspent>): seq<LocalUnspent>
  {
    Filter(us, (u: LocalUnspent) => InputUnspent(u))
  }

  function MainAmounts(): LocalRgbAllocation -> nat
  {
    (a: LocalRgbAllocation) => a.assignment.MainAmount()
  }

  function MainKey(): LocalUnspent -> nat
  {
    (u: LocalUnspent) => SumNat(u.allocations, MainAmounts())
  }

  function InflationKey(): LocalUnspent -> nat
  {
    (u: LocalUnspent) => SumNat(u.allocations, InflationAmountsNat())
  }

  function InflationAmountsNat(): LocalRgbAllocation -> nat
  {
    (a: LocalRgbAllocation) => a.assignment.InflationAmount()
  }

  function SumNat<T>(xs: seq<T>, f: T -> nat): nat
  {
    if xs == [] then 0 else SumNat(xs[..|xs| - 1], f) + f(xs[|xs| - 1])
  }

  /** Smallest holders first: by inflation rights, then (stably) by main amounts. */
  function Ordered(needed: AssignmentsCollection, us: seq<LocalUnspent>): seq<LocalUnspent>
  {
    var byInflation := if needed.inflation > 0 then SortByKey(us, InflationKey()) else us;
    if needed.fungible > 0 then SortByKey(byInflation, MainKey()) else byInflation
  }

  lemma OrderedPermutes(needed: AssignmentsCollection, us: seq<LocalUnspent>)
    ensures multiset(Ordered(needed, us)) == multiset(us)
  {
    SortByKeyCorrect(us, InflationKey());
    SortByKeyCorrect(if needed.inflation > 0 then SortByKey(us, InflationKey()) else us, MainKey());
  }

  /** What an allocation of any asset is worth, and the inflation rights in it, by its kind. */
  function MainWorth(): LocalRgbAllocation -> int
  {
    (a: LocalRgbAllocation) =>
      if a.assignment.Fungible? then a.assignment.amount else if a.assignment.NonFungible? then 1 else 0
  }

  function RightsWorth(): LocalRgbAllocation -> int
  {
    (a: LocalRgbAllocation) => if a.assignment.InflationRight? then a.assignment.amount else 0
  }

  lemma {:induction false} SumNatIsSum<T>(xs: seq<T>, f: T -> nat, g: T -> int)
    requires forall x: T :: f(x) == g(x)
    ensures SumNat(xs, f) == Sum(xs, g)
  {
    if xs != [] {
      SumNatIsSum(xs[..|xs| - 1], f, g);
    }
  }

  /** The sorting keys of a UTXO: all that it hosts, of whatever asset and status. */
  lemma KeysOf(u: LocalUnspent)
    ensures MainKey()(u) == Sum(u.allocations, MainWorth())
    ensures InflationKey()(u) == Sum(u.allocations, RightsWorth())
  {
    SumNatIsSum(u.allocations, MainAmounts(), MainWorth());
    SumNatIsSum(u.allocations, InflationAmountsNat(), RightsWorth());
  }

  /** Of any two chosen UTXOs the first one hosts no more than the second, in what is asked for. */
  lemma SmallestTakenFirst(needed: AssignmentsCollection, us: seq<LocalUnspent>, inputs: seq<LocalUnspent>,
                           i: nat, j: nat)
    requires Subsequence(inputs, Ordered(needed, us)) && i < j < |inputs|
    ensures needed.fungible > 0 ==>
      Sum(inputs[i].allocations, MainWorth()) <= Sum(inputs[j].allocations, MainWorth())
    ensures needed.inflation > 0
      && (needed.fungible == 0 || Sum(inputs[i].allocations, MainWorth()) == Sum(inputs[j].allocations, MainWorth()))
      ==> Sum(inputs[i].allocations, RightsWorth()) <= Sum(inputs[j].allocations, RightsWorth())
  {
    TakenInOrder(needed, us, inputs);
    KeysOf(inputs[i]);
    KeysOf(inputs[j]);
    if needed.fungible > 0 && needed.inflation > 0 {
      assert ByBoth(MainKey(), InflationKey())(inputs[i], inputs[j]);
    }
  }

  /** UTXOs are taken from the smallest holders to the largest. */
  lemma TakenInOrder(needed: AssignmentsCollection, us: seq<LocalUnspent>, inputs: seq<LocalUnspent>)
    requires Subsequence(inputs, Ordered(needed, us))
    ensures needed.fungible > 0 ==> SortedByKey(inputs, MainKey())
    ensures needed.fungible == 0 && needed.inflation > 0 ==> SortedByKey(inputs, InflationKey())
    ensures needed.fungible > 0 && needed.inflation > 0 ==> Pairwise(inputs, ByBoth(MainKey(), InflationKey()))
  {
    if needed.inflation > 0 {
      SortByKeyCorrect(us, InflationKey());
    }
    if needed.fungible > 0 && needed.inflation > 0 {
      SortIsStable(SortByKey(us, InflationKey()), MainKey(), InflationKey());
      SubsequencePairwise(inputs, Ordered(needed, us), ByBoth(MainKey(), InflationKey()));
    }
    if needed.fungible > 0 {
      SortByKeyCorrect(if needed.inflation > 0 then SortByKey(us, InflationKey()) else us, MainKey());
      SubsequenceSorted(inputs, Ordered(needed, us), MainKey());
    } else if needed.inflation > 0 {
      SubsequenceSorted(inputs, Ordered(needed, us), InflationKey());
    }
  }

  /** r is c plus everything in the allocations. */
  ghost predicate Added(c: AssignmentsCollection, allocations: seq<LocalRgbAllocation>, r: AssignmentsCollection)
  {
    && r.fungible == c.fungible + Sum(allocations, FungibleAmounts())
    && r.inflation == c.inflation + Sum(allocations, InflationAmounts())
    && (r.nonFungible <==> c.nonFungible || Sum(allocations, NonFungibles()) > 0)
  }

  lemma AddOne(c: AssignmentsCollection, allocations: seq<LocalRgbAllocation>, r: AssignmentsCollection,
               a: LocalRgbAllocation)
    requires Added(c, allocations, r) && !a.assignment.Any?
    ensures Added(c, allocations + [a], r.AddAssignment(a.assignment))
  {
    SumAppend(allocations, a, FungibleAmounts());
    SumAppend(allocations, a, InflationAmounts());
    SumAppend(allocations, a, NonFungibles());
    SumNonNegative(allocations, NonFungibles());
  }

  /** Add every allocation of one chosen UTXO to the collection. */
  method AddAllocations(c: AssignmentsCollection, allocations: seq<LocalRgbAllocation>)
    returns (r: AssignmentsCollection)
    requires forall a | a in allocations :: !a.assignment.Any?
    ensures Added(c, allocations, r)
  {
    r := c;
    for i := 0 to |allocations|
      invariant Added(c, allocations[..i], r)
    {
      assert allocations[..i + 1] == allocations[..i] + [allocations[i]];
      AddOne(c, allocations[..i], r, allocations[i]);
      r := r.AddAssignment(allocations[i].assignment);
    }
    assert allocations[..|allocations|] == allocations;
  }

  /** Whether a UTXO hosts a kind of assignment that is still missing. */
  predicate Needed(c: AssignmentsCollection, needed: AssignmentsCollection, allocations: seq<LocalRgbAllocation>)
  {
    || (c.fungible < needed.fungible && exists a | a in allocations :: a.assignment.Fungible?)
    || (!c.nonFungible && needed.nonFungible && exists a | a in allocations :: a.assignment.NonFungible?)
    || (c.inflation < needed.inflation && exists a | a in allocations :: a.assignment.InflationRight?)
  }

  /** The collection reached after looking at the UTXOs seen so far: enough of each kind, or all of it. */
  ghost predicate Harvested(asset: AssetId, needed: AssignmentsCollection, c: AssignmentsCollection,
                            seen: seq<LocalUnspent>)
  {
    && (needed.fungible <= c.fungible || c.fungible == Sum(seen, FungibleOn(asset)))
    && c.fungible <= Sum(seen, FungibleOn(asset))
    && (needed.inflation <= c.inflation || c.inflation == Sum(seen, InflationOn(asset)))
    && c.inflation <= Sum(seen, InflationOn(asset))
    && (c.nonFungible ==> SomeNonFungible(asset, seen))
    && (needed.nonFungible && SomeNonFungible(asset, seen) ==> c.nonFungible)
  }

  /** A skipped UTXO has nothing of a kind that is still missing. */
  lemma SkipKeepsHarvest(asset: AssetId, needed: AssignmentsCollection, c: AssignmentsCollection,
                         seen: seq<LocalUnspent>, u: LocalUnspent)
    requires Harvested(asset, needed, c, seen)
    requires !Needed(c, needed, Filter(u.allocations, SettledFilter(asset)))
    ensures Harvested(asset, needed, c, seen + [u])
  {
    var own := Filter(u.allocations, SettledFilter(asset));
    SumAppend(seen, u, FungibleOn(asset));
    SumAppend(seen, u, InflationOn(asset));
    SumAppend(seen, u, NonFungibleOn(asset));
    HostedNonNegative(asset, u);
    if c.fungible < needed.fungible {
      SumZero(own, FungibleAmounts());
    }
    if c.inflation < needed.inflation {
      SumZero(own, InflationAmounts());
    }
    if !c.nonFungible && needed.nonFungible {
      SumZero(own, NonFungibles());
    }
  }

  /** Taking a UTXO adds exactly what it hosts. */
  lemma TakeKeepsHarvest(asset: AssetId, needed: AssignmentsCollection, c: AssignmentsCollection,
                         c': AssignmentsCollection, inputs: seq<LocalUnspent>, seen: seq<LocalUnspent>,
                         u: LocalUnspent)
    requires Harvested(asset, needed, c, seen) && IsTotal(asset, inputs, c)
    requires Added(c, Filter(u.allocations, SettledFilter(asset)), c')
    ensures Harvested(asset, needed, c', seen + [u])
    ensures IsTotal(asset, inputs + [u], c')
  {
    HostedNonNegative(asset, u);
    AmountsNonNegative(asset, inputs);
    AmountsNonNegative(asset, seen);
    SumAppend(inputs, u, FungibleOn(asset));
    SumAppend(inputs, u, InflationOn(asset));
    SumAppend(inputs, u, NonFungibleOn(asset));
    SumAppend(seen, u, FungibleOn(asset));
    SumAppend(seen, u, InflationOn(asset));
    SumAppend(seen, u, NonFungibleOn(asset));
  }

  lemma HarvestDecides(asset: AssetId, needed: AssignmentsCollection, c: AssignmentsCollection,
                       candidates: seq<LocalUnspent>, unspents: seq<LocalUnspent>)
    requires multiset(candidates) == multiset(unspents)
    requires Harvested(asset, needed, c, candidates)
    requires KindsMatch(asset, needed, unspents)
    ensures c.Enough(needed) <==> Suffices(asset, needed, unspents)
  {
    SumPermutation(candidates, unspents, FungibleOn(asset));
    SumPermutation(candidates, unspents, InflationOn(asset));
    SumPermutation(candidates, unspents, NonFungibleOn(asset));
  }

  /** Collections only grow along the candidates, so enough from a prefix is enough from all. */
  lemma {:induction false} PrefixSuffices(asset: AssetId, needed: AssignmentsCollection, us: seq<LocalUnspent>, k: nat)
    requires k <= |us| && Suffices(asset, needed, us[..k])
    ensures Suffices(asset, needed, us)
  {
    assert us == us[..k] + us[k..];
    SumConcat(us[..k], us[k..], FungibleOn(asset));
    SumConcat(us[..k], us[k..], InflationOn(asset));
    SumConcat(us[..k], us[k..], NonFungibleOn(asset));
    AmountsNonNegative(asset, us[k..]);
  }

  /** A harvest that is enough shows that the candidates hold enough. */
  lemma HarvestSuffices(asset: AssetId, needed: AssignmentsCollection, c: AssignmentsCollection,
                        candidates: seq<LocalUnspent>, k: nat, unspents: seq<LocalUnspent>)
    requires multiset(candidates) == multiset(unspents) && k <= |candidates|
    requires Harvested(asset, needed, c, candidates[..k]) && c.Enough(needed)
    ensures Suffices(asset, needed, unspents)
  {
    PrefixSuffices(asset, needed, candidates, k);
    SumPermutation(candidates, unspents, FungibleOn(asset));
    SumPermutation(candidates, unspents, InflationOn(asset));
    SumPermutation(candidates, unspents, NonFungibleOn(asset));
  }

  /** A UTXO is only taken while something is missing from those taken before it. */
  lemma LastWasNeeded(asset: AssetId, needed: AssignmentsCollection, c: AssignmentsCollection,
                      inputs: seq<LocalUnspent>, own: seq<LocalRgbAllocation>, unspents: seq<LocalUnspent>)
    requires IsTotal(asset, inputs, c) && Needed(c, needed, own)
    requires multiset(inputs) <= multiset(unspents)
    ensures KindsMatch(asset, needed, unspents) ==> !Suffices(asset, needed, inputs)
  {
    if KindsMatch(asset, needed, unspents) && !needed.nonFungible {
      PartNonFungible(asset, inputs, unspents);
    }
  }

  /** A part of UTXOs without non-fungible pieces has none. */
  lemma PartNonFungible(asset: AssetId, inputs: seq<LocalUnspent>, unspents: seq<LocalUnspent>)
    requires multiset(inputs) <= multiset(unspents)
    ensures Sum(inputs, NonFungibleOn(asset)) <= Sum(unspents, NonFungibleOn(asset))
  {
    var rest := multiset(unspents) - multiset(inputs);
    var others := SeqOf(rest);
    assert multiset(inputs + others) == multiset(inputs) + rest;
    SumPermutation(inputs + others, unspents, NonFungibleOn(asset));
    SumConcat(inputs, others, NonFungibleOn(asset));
    AmountsNonNegative(asset, others);
  }

  function BtcAmounts(): LocalUnspent -> int
  {
    (u: LocalUnspent) => u.btcAmount
  }

  /** State of the selection loop after i candidates. */
  ghost predicate Selecting(asset: AssetId, needed: AssignmentsCollection, spend: AssetSpend,
                            candidates: seq<LocalUnspent>, i: nat)
  {
    && i <= |candidates| && Subsequence(spend.inputs, candidates[..i])
    && IsTotal(asset, spend.inputs, spend.collected)
    && spend.inputBtc == Sum(spend.inputs, BtcAmounts())
    && Harvested(asset, needed, spend.collected, candidates[..i])
  }

  lemma SkipStep(asset: AssetId, needed: AssignmentsCollection, spend: AssetSpend,
                 candidates: seq<LocalUnspent>, i: nat)
    requires i < |candidates| && Selecting(asset, needed, spend, candidates, i)
    requires !Needed(spend.collected, needed, Filter(candidates[i].allocations, SettledFilter(asset)))
    ensures Selecting(asset, needed, spend, candidates, i + 1)
  {
    assert candidates[..i + 1] == candidates[..i] + [candidates[i]];
    SubsequenceStep(spend.inputs, candidates[..i], candidates[i]);
    SkipKeepsHarvest(asset, needed, spend.collected, candidates[..i], candidates[i]);
  }

  lemma TakeStep(asset: AssetId, needed: AssignmentsCollection, spend: AssetSpend, c': AssignmentsCollection,
                 candidates: seq<LocalUnspent>, i: nat)
    requires i < |candidates| && Selecting(asset, needed, spend, candidates, i)
    requires Added(spend.collected, Filter(candidates[i].allocations, SettledFilter(asset)), c')
    ensures Selecting(asset, needed,
      AssetSpend(spend.inputs + [candidates[i]], c', spend.inputBtc + candidates[i].btcAmount), candidates, i + 1)
  {
    var u := candidates[i];
    assert candidates[..i + 1] == candidates[..i] + [u];
    SubsequenceStep(spend.inputs, candidates[..i], u);
    TakeKeepsHarvest(asset, needed, spend.collected, c', spend.inputs, candidates[..i], u);
    SumAppend(spend.inputs, u, BtcAmounts());
  }

  /** The last UTXO taken is never superfluous. */
  ghost predicate Lean(asset: AssetId, needed: AssignmentsCollection, inputs: seq<LocalUnspent>,
                       unspents: seq<LocalUnspent>)
  {
    inputs != [] && KindsMatch(asset, needed, unspents) ==> !Suffices(asset, needed, inputs[..|inputs| - 1])
  }

  /** The UTXO hosts a kind of assignment that those before it do not hold enough of. */
  ghost predicate Missing(asset: AssetId, needed: AssignmentsCollection, before: seq<LocalUnspent>, u: LocalUnspent)
  {
    var own := Filter(u.allocations, SettledFilter(asset));
    || (Sum(before, FungibleOn(asset)) < needed.fungible && exists a | a in own :: a.assignment.Fungible?)
    || (!SomeNonFungible(asset, before) && needed.nonFungible && exists a | a in own :: a.assignment.NonFungible?)
    || (Sum(before, InflationOn(asset)) < needed.inflation && exists a | a in own :: a.assignment.InflationRight?)
  }

  ghost predicate EachMissing(asset: AssetId, needed: AssignmentsCollection, inputs: seq<LocalUnspent>)
  {
    forall i | 0 <= i < |inputs| :: Missing(asset, needed, inputs[..i], inputs[i])
  }

  lemma OneMoreMissing(asset: AssetId, needed: AssignmentsCollection, inputs: seq<LocalUnspent>, u: LocalUnspent)
    requires EachMissing(asset, needed, inputs) && Missing(asset, needed, inputs, u)
    ensures EachMissing(asset, needed, inputs + [u])
  {
    forall i | 0 <= i < |inputs| + 1
      ensures Missing(asset, needed, (inputs + [u])[..i], (inputs + [u])[i])
    {
      assert (inputs + [u])[..i] == inputs[..i];
      if i == |inputs| {
        assert inputs[..i] == inputs;
      }
    }
  }

  /**
   * The inputs are the candidates at the given places, and none before place n was passed over that hosts
   * something those taken before it miss.
   */
  ghost predicate NoneSkipped(asset: AssetId, needed: AssignmentsCollection, candidates: seq<LocalUnspent>,
                              inputs: seq<LocalUnspent>, at: seq<nat>, n: nat)
  {
    && |at| == |inputs| && n <= |candidates|
    && (forall k | 0 <= k < |at| :: at[k] < n && candidates[at[k]] == inputs[k])
    && (forall k, m | 0 <= k < m < |at| :: at[k] < at[m])
    && (forall j, k | 0 <= j < n && 0 <= k <= |at| && Between(at, j, k) ::
          !Missing(asset, needed, inputs[..k], candidates[j]))
  }

  /** Place j lies strictly between the k-th place and the one before it. */
  predicate Between(at: seq<nat>, j: nat, k: nat)
    requires k <= |at|
  {
    (k == 0 || at[k - 1] < j) && (k == |at| || j < at[k])
  }

  lemma SkipsNone(asset: AssetId, needed: AssignmentsCollection, candidates: seq<LocalUnspent>,
                  inputs: seq<LocalUnspent>, at: seq<nat>, n: nat)
    requires NoneSkipped(asset, needed, candidates, inputs, at, n) && n < |candidates|
    requires !Missing(asset, needed, inputs, candidates[n])
    ensures NoneSkipped(asset, needed, candidates, inputs, at, n + 1)
  {
    assert inputs[..|at|] == inputs;
    forall j, k | 0 <= j < n + 1 && 0 <= k <= |at| && Between(at, j, k)
      ensures !Missing(asset, needed, inputs[..k], candidates[j])
    {
      if j == n {
        assert k == |at|;
      }
    }
  }

  lemma TakesNext(asset: AssetId, needed: AssignmentsCollection, candidates: seq<LocalUnspent>,
                  inputs: seq<LocalUnspent>, at: seq<nat>, n: nat)
    requires NoneSkipped(asset, needed, candidates, inputs, at, n) && n < |candidates|
    ensures NoneSkipped(asset, needed, candidates, inputs + [candidates[n]], at + [n], n + 1)
  {
    var inputs', at' := inputs + [candidates[n]], at + [n];
    forall j, k | 0 <= j < n + 1 && 0 <= k <= |at'| && Between(at', j, k)
      ensures !Missing(asset, needed, inputs'[..k], candidates[j])
    {
      assert k <= |at| && j < n;
      assert inputs'[..k] == inputs[..k];
      assert Between(at, j, k);
    }
  }

  ghost predicate SkipsNothing(asset: AssetId, needed: AssignmentsCollection, candidates: seq<LocalUnspent>,
                               inputs: seq<LocalUnspent>)
  {
    exists at, n :: NoneSkipped(asset, needed, candidates, inputs, at, n)
  }

  /**
   * A selection: a part of the candidates in order, worth what is needed, with every UTXO hosting something
   * that those before it miss, and none passed over that does.
   */
  ghost predicate Selects(asset: AssetId, needed: AssignmentsCollection, unspents: seq<LocalUnspent>, spend: AssetSpend)
  {
    && multiset(spend.inputs) <= multiset(unspents)
    && Subsequence(spend.inputs, Ordered(needed, unspents))
    && IsTotal(asset, spend.inputs, spend.collected)
    && spend.collected.Enough(needed)
    && spend.inputBtc == Sum(spend.inputs, BtcAmounts())
    && EachMissing(asset, needed, spend.inputs)
    && SkipsNothing(asset, needed, Ordered(needed, unspents), spend.inputs)
    && Lean(asset, needed, spend.inputs, unspents)
  }

  /** State of the loop with all that a selection promises. */
  ghost predicate Choosing(asset: AssetId, needed: AssignmentsCollection, spend: AssetSpend,
                           candidates: seq<LocalUnspent>, i: nat, at: seq<nat>, unspents: seq<LocalUnspent>)
  {
    && Selecting(asset, needed, spend, candidates, i)
    && NoneSkipped(asset, needed, candidates, spend.inputs, at, i)
    && EachMissing(asset, needed, spend.inputs)
    && Lean(asset, needed, spend.inputs, unspents)
  }

  /** Look at candidate i: skip it, or take all its settled allocations of the asset. */
  method Consider(asset: AssetId, needed: AssignmentsCollection, spend: AssetSpend,
                  candidates: seq<LocalUnspent>, i: nat, ghost at: seq<nat>, ghost unspents: seq<LocalUnspent>)
    returns (r: AssetSpend, ghost at': seq<nat>)
    requires i < |candidates| && Choosing(asset, needed, spend, candidates, i, at, unspents)
    requires multiset(candidates) == multiset(unspents) && Concrete(asset, unspents)
    ensures Choosing(asset, needed, r, candidates, i + 1, at', unspents)
  {
    var u := candidates[i];
    var own := Filter(u.allocations, SettledFilter(asset));
    SameMembers(candidates, unspents);
    if own == [] || !Needed(spend.collected, needed, own) {
      SkipStep(asset, needed, spend, candidates, i);
      SkipsNone(asset, needed, candidates, spend.inputs, at, i);
      return spend, at;
    }
    var collected := AddAllocations(spend.collected, own);
    r := AssetSpend(spend.inputs + [u], collected, spend.inputBtc + u.btcAmount);
    at' := at + [i];
    TakeKeeps(asset, needed, spend, collected, candidates, i, at, unspents);
  }

  lemma TakeKeeps(asset: AssetId, needed: AssignmentsCollection, spend: AssetSpend, c': AssignmentsCollection,
                  candidates: seq<LocalUnspent>, i: nat, at: seq<nat>, unspents: seq<LocalUnspent>)
    requires i < |candidates| && Choosing(asset, needed, spend, candidates, i, at, unspents)
    requires multiset(candidates) == multiset(unspents)
    requires Needed(spend.collected, needed, Filter(candidates[i].allocations, SettledFilter(asset)))
    requires Added(spend.collected, Filter(candidates[i].allocations, SettledFilter(asset)), c')
    ensures Choosing(asset, needed,
      AssetSpend(spend.inputs + [candidates[i]], c', spend.inputBtc + candidates[i].btcAmount), candidates, i + 1,
      at + [i], unspents)
  {
    var u := candidates[i];
    TakeStep(asset, needed, spend, c', candidates, i);
    TakesNext(asset, needed, candidates, spend.inputs, at, i);
    OneMoreMissing(asset, needed, spend.inputs, u);
    TakeIsLean(asset, needed, spend, candidates, i, unspents);
  }

  lemma TakeIsLean(asset: AssetId, needed: AssignmentsCollection, spend: AssetSpend,
                   candidates: seq<LocalUnspent>, i: nat, unspents: seq<LocalUnspent>)
    requires i < |candidates| && Selecting(asset, needed, spend, candidates, i)
    requires multiset(candidates) == multiset(unspents)
    requires Needed(spend.collected, needed, Filter(candidates[i].allocations, SettledFilter(asset)))
    ensures Lean(asset, needed, spend.inputs + [candidates[i]], unspents)
  {
    assert (spend.inputs + [candidates[i]])[..|spend.inputs|] == spend.inputs;
    SubsequenceOfPrefix(spend.inputs, candidates, i);
    SubsequenceIsPart(spend.inputs, candidates);
    LastWasNeeded(asset, needed, spend.collected, spend.inputs,
      Filter(candidates[i].allocations, SettledFilter(asset)), unspents);
  }

  /**
   * Take UTXOs in order until the needed assignments are collected.
   * No UTXO is taken in vain, the last one is never superfluous, and the selection succeeds exactly when the
   * candidates hold enough.
   */
  method SelectRgbInputs(asset: AssetId, needed: AssignmentsCollection, unspents: seq<LocalUnspent>)
    returns (r: Result<AssetSpend, AssignmentsCollection>)
    requires Concrete(asset, unspents)
    ensures r.Success? ==> Selects(asset, needed, unspents, r.value)
    ensures KindsMatch(asset, needed, unspents) ==>
      (r.Success? <==> Suffices(asset, needed, unspents))
  {
    var candidates := Ordered(needed, unspents);
    OrderedPermutes(needed, unspents);
    var spend := AssetSpend([], NOTHING, 0);
    var i := 0;
    ghost var at: seq<nat> := [];
    while i < |candidates|
      invariant 0 <= i <= |candidates| && Choosing(asset, needed, spend, candidates, i, at, unspents)
    {
      var before := spend;
      spend, at := Consider(asset, needed, spend, candidates, i, at, unspents);
      i := i + 1;
      // the sufficiency check runs after a UTXO was taken
      if spend != before && spend.collected.Enough(needed) {
        break;
      }
    }
    Decide(asset, needed, spend, candidates, i, at, unspents);
    return if spend.collected.Enough(needed) then Success(spend) else Failure(spend.collected);
  }

  /** Whether the loop stopped early or saw every candidate, its verdict is about all of them. */
  lemma Decide(asset: AssetId, needed: AssignmentsCollection, spend: AssetSpend,
               candidates: seq<LocalUnspent>, i: nat, at: seq<nat>, unspents: seq<LocalUnspent>)
    requires multiset(candidates) == multiset(unspents) && candidates == Ordered(needed, unspents)
    requires i <= |candidates| && Choosing(asset, needed, spend, candidates, i, at, unspents)
    requires i == |candidates| || spend.collected.Enough(needed)
    ensures spend.collected.Enough(needed) ==> Selects(asset, needed, unspents, spend)
    ensures KindsMatch(asset, needed, unspents) ==>
      (spend.collected.Enough(needed) <==> Suffices(asset, needed, unspents))
  {
    SubsequenceOfPrefix(spend.inputs, candidates, i);
    SubsequenceIsPart(spend.inputs, candidates);
    if spend.collected.Enough(needed) {
      HarvestSuffices(asset, needed, spend.collected, candidates, i, unspents);
    } else if KindsMatch(asset, needed, unspents) {
      assert candidates[..i] == candidates;
      HarvestDecides(asset, needed, spend.collected, candidates, unspents);
    }
  }
}
