/** Outputs chosen to host newly issued allocations. */
module Issuance {

  import opened Common
  import opened Assignments
  import opened Selection

  function NotFailed(): LocalRgbAllocation -> bool
  {
    (a: LocalRgbAllocation) => !a.status.Failed?
  }

  /** The output without its failed allocations. */
  function Pruned(u: LocalUnspent): LocalUnspent
  {
    u.(allocations := Filter(u.allocations, NotFailed()))
  }

  function PruneAll(us: seq<LocalUnspent>): seq<LocalUnspent>
  {
    seq(|us|, i requires 0 <= i < |us| => Pruned(us[i]))
  }

  /** Live allocations and blind invoices waiting on a pruned output. */
  function Load(): LocalUnspent -> nat
  {
    (u: LocalUnspent) => |u.allocations| + u.pendingBlinded
  }

  /** A pruned output that may take one more allocation. */
  function Allocatable(exclude: seq<Outpoint>, maxAllocations: nat): LocalUnspent -> bool
  {
    (u: LocalUnspent) =>
      && u.exists_ && !u.pendingWitness && u.outpoint !in exclude
      && Load()(u) <= maxAllocations
      && !(exists a | a in u.allocations :: a.Reserves())
  }

  function GetAvailableAllocations(us: seq<LocalUnspent>, exclude: seq<Outpoint>, maxAllocations: nat): seq<LocalUnspent>
  {
    Filter(PruneAll(us), Allocatable(exclude, maxAllocations))
  }

  /** Neither settled nor failed yet: it will only be worth something later. */
  predicate IsFuture(a: LocalRgbAllocation)
  {
    !a.txoSpent && a.incoming && !a.status.Failed? && !a.IsSettled()
  }

  function HasFuture(): LocalUnspent -> bool
  {
    (u: LocalUnspent) => exists a | a in u.allocations :: IsFuture(a)
  }

  function HasNoFuture(): LocalUnspent -> bool
  {
    (u: LocalUnspent) => forall a | a in u.allocations :: !IsFuture(a)
  }

  /** The first candidate, or the first one of the operation's kind if that already hosts something. */
  function Pick(sorted: seq<LocalUnspent>, pendingOperation: bool): LocalUnspent
    requires sorted != []
  {
    var kin := Filter(sorted, if pendingOperation then HasFuture() else HasNoFuture());
    if |sorted| > 1 && sorted[0].allocations != [] && kin != [] then kin[0] else sorted[0]
  }

  lemma PickIsCandidate(sorted: seq<LocalUnspent>, pendingOperation: bool)
    requires sorted != []
    ensures Pick(sorted, pendingOperation) in sorted
  {
    var p := if pendingOperation then HasFuture() else HasNoFuture();
    var kin := Filter(sorted, p);
    if kin != [] {
      FilterMember(sorted, p, kin[0]);
    }
  }

  /** The available output that a new allocation goes to. */
  function GetUtxo(us: seq<LocalUnspent>, exclude: seq<Outpoint>, pendingOperation: bool, maxAllocations: nat)
    : Option<LocalUnspent>
  {
    var sorted := SortByKey(GetAvailableAllocations(us, exclude, maxAllocations), Load());
    if sorted == [] then None else Some(Pick(sorted, pendingOperation))
  }

  lemma AvailableMember(us: seq<LocalUnspent>, exclude: seq<Outpoint>, maxAllocations: nat, u: LocalUnspent)
    ensures u in GetAvailableAllocations(us, exclude, maxAllocations)
      <==> u in PruneAll(us) && Allocatable(exclude, maxAllocations)(u)
  {
    FilterMember(PruneAll(us), Allocatable(exclude, maxAllocations), u);
  }

  /** An output is found exactly when one is available, and it is an available one. */
  lemma UtxoIsAvailable(us: seq<LocalUnspent>, exclude: seq<Outpoint>, pendingOperation: bool, maxAllocations: nat)
    ensures var r, available := GetUtxo(us, exclude, pendingOperation, maxAllocations),
                                GetAvailableAllocations(us, exclude, maxAllocations);
      if r.None? then available == [] else r.value in available
  {
    var available := GetAvailableAllocations(us, exclude, maxAllocations);
    var sorted := SortByKey(available, Load());
    SortByKeyCorrect(available, Load());
    SameMembers(sorted, available);
    if sorted != [] {
      PickIsCandidate(sorted, pendingOperation);
    }
  }

  /** Empty outputs come first: a loaded one is only chosen when no available output is empty. */
  lemma EmptyFirst(us: seq<LocalUnspent>, exclude: seq<Outpoint>, pendingOperation: bool, maxAllocations: nat,
                   u: LocalUnspent)
    requires u in GetAvailableAllocations(us, exclude, maxAllocations) && Load()(u) == 0
    ensures GetUtxo(us, exclude, pendingOperation, maxAllocations).Some?
    ensures Load()(GetUtxo(us, exclude, pendingOperation, maxAllocations).value) == 0
  {
    var available := GetAvailableAllocations(us, exclude, maxAllocations);
    var sorted := SortByKey(available, Load());
    SortByKeyCorrect(available, Load());
    SameMembers(sorted, available);
    var i :| 0 <= i < |sorted| && sorted[i] == u;
    assert Load()(sorted[0]) <= Load()(sorted[i]);
  }

  function One(): LocalUnspent -> int
  {
    (u: LocalUnspent) => 1
  }

  lemma {:induction false} SumOfOnes(us: seq<LocalUnspent>)
    ensures Sum(us, One()) == |us|
  {
    if us != [] {
      SumOfOnes(us[..|us| - 1]);
    }
  }

  /** Using an available output makes exactly one fewer available. */
  lemma OneFewer(us: seq<LocalUnspent>, exclude: seq<Outpoint>, maxAllocations: nat, u: LocalUnspent)
    requires DistinctOutpoints(us) && u in GetAvailableAllocations(us, exclude, maxAllocations)
    ensures |GetAvailableAllocations(us, exclude + [u.outpoint], maxAllocations)|
         == |GetAvailableAllocations(us, exclude, maxAllocations)| - 1
  {
    var pruned := PruneAll(us);
    var p, q := Allocatable(exclude, maxAllocations), Allocatable(exclude + [u.outpoint], maxAllocations);
    FilterMember(pruned, p, u);
    var k :| 0 <= k < |pruned| && pruned[k] == u;
    SumOfOnes(Filter(pruned, p));
    SumOfOnes(Filter(pruned, q));
    SumGate(pruned, p, One());
    SumGate(pruned, q, One());
    forall i | 0 <= i < |pruned| && i != k
      ensures p(pruned[i]) <==> q(pruned[i])
    {
      assert us[i].outpoint != us[k].outpoint;
    }
    SumDifferAt(pruned, Gate(p, One()), Gate(q, One()), k);
  }

  /** Outputs chosen so far: distinct, excluded from now on, and with room for one more allocation. */
  ghost predicate Slots(chosen: seq<LocalUnspent>, exclude: seq<Outpoint>, us: seq<LocalUnspent>, maxPerUtxo: nat)
    requires maxPerUtxo > 0
  {
    && DistinctOutpoints(chosen)
    && |exclude| == |chosen|
    && (forall j | 0 <= j < |chosen| :: chosen[j].outpoint == exclude[j])
    // with the new allocation, no output hosts more than it may
    && (forall u | u in chosen :: u in GetAvailableAllocations(us, [], maxPerUtxo - 1) && Load()(u) + 1 <= maxPerUtxo)
  }

  lemma OneMoreSlot(chosen: seq<LocalUnspent>, exclude: seq<Outpoint>, us: seq<LocalUnspent>, maxPerUtxo: nat,
                    u: LocalUnspent)
    requires maxPerUtxo > 0 && Slots(chosen, exclude, us, maxPerUtxo)
    requires u in GetAvailableAllocations(us, exclude, maxPerUtxo - 1)
    ensures Slots(chosen + [u], exclude + [u.outpoint], us, maxPerUtxo)
  {
    AvailableMember(us, exclude, maxPerUtxo - 1, u);
    AvailableMember(us, [], maxPerUtxo - 1, u);
  }

  /** Outputs that host nothing at all. */
  function Empties(us: seq<LocalUnspent>, exclude: seq<Outpoint>): nat
  {
    |GetAvailableAllocations(us, exclude, 0)|
  }

  function Less(n: nat, k: nat): nat
  {
    if k < n then n - k else 0
  }

  /** Every pick uses up an empty output as long as there is one. */
  lemma EmptyUsedFirst(us: seq<LocalUnspent>, exclude: seq<Outpoint>, maxAllocations: nat)
    requires DistinctOutpoints(us) && GetUtxo(us, exclude, false, maxAllocations).Some?
    ensures var u := GetUtxo(us, exclude, false, maxAllocations).value;
      Empties(us, exclude + [u.outpoint]) == Less(Empties(us, exclude), 1)
  {
    var u := GetUtxo(us, exclude, false, maxAllocations).value;
    var empties := GetAvailableAllocations(us, exclude, 0);
    UtxoIsAvailable(us, exclude, false, maxAllocations);
    AvailableMember(us, exclude, maxAllocations, u);
    if empties == [] {
      var after := GetAvailableAllocations(us, exclude + [u.outpoint], 0);
      if after != [] {
        AvailableMember(us, exclude + [u.outpoint], 0, after[0]);
        AvailableMember(us, exclude, 0, after[0]);
      }
    } else {
      AvailableMember(us, exclude, 0, empties[0]);
      AvailableMember(us, exclude, maxAllocations, empties[0]);
      EmptyFirst(us, exclude, false, maxAllocations, empties[0]);
      AvailableMember(us, exclude, 0, u);
      OneFewer(us, exclude, 0, u);
    }
  }

  /**
   * Pick an output per amount. It works out exactly when there are as many allocatable outputs as
   * amounts; the outputs are distinct and none ends up with more than the allowed allocations.
   */
  method ChooseIssueUtxos(us: seq<LocalUnspent>, amounts: seq<nat>, maxPerUtxo: nat)
    returns (r: Option<seq<LocalUnspent>>, exclude: seq<Outpoint>)
    requires DistinctOutpoints(us) && maxPerUtxo > 0
    ensures r.Some? <==> |amounts| <= |GetAvailableAllocations(us, [], maxPerUtxo - 1)|
    ensures r.Some? ==> |r.value| == |amounts| && Slots(r.value, exclude, us, maxPerUtxo)
    ensures r.Some? ==> Empties(us, exclude) == Less(Empties(us, []), |amounts|)
  {
    exclude := [];
    var chosen: seq<LocalUnspent> := [];
    for i := 0 to |amounts|
      invariant |chosen| == i && Choosing(us, chosen, exclude, maxPerUtxo)
    {
      UtxoIsAvailable(us, exclude, false, maxPerUtxo - 1);
      var utxo := GetUtxo(us, exclude, false, maxPerUtxo - 1);
      if utxo.None? {
        return None, exclude;
      }
      OneMoreChosen(us, chosen, exclude, maxPerUtxo);
      exclude := exclude + [utxo.value.outpoint];
      chosen := chosen + [utxo.value];
    }
    return Some(chosen), exclude;
  }

  /** After any number of picks: as many fewer outputs are available, and empty ones as long as there are any. */
  ghost predicate Choosing(us: seq<LocalUnspent>, chosen: seq<LocalUnspent>, exclude: seq<Outpoint>, maxPerUtxo: nat)
    requires maxPerUtxo > 0
  {
    && Slots(chosen, exclude, us, maxPerUtxo)
    && |GetAvailableAllocations(us, exclude, maxPerUtxo - 1)| + |chosen|
         == |GetAvailableAllocations(us, [], maxPerUtxo - 1)|
    && Empties(us, exclude) == Less(Empties(us, []), |chosen|)
  }

  lemma OneMoreChosen(us: seq<LocalUnspent>, chosen: seq<LocalUnspent>, exclude: seq<Outpoint>, maxPerUtxo: nat)
    requires maxPerUtxo > 0 && DistinctOutpoints(us) && Choosing(us, chosen, exclude, maxPerUtxo)
    requires GetUtxo(us, exclude, false, maxPerUtxo - 1).Some?
    ensures var u := GetUtxo(us, exclude, false, maxPerUtxo - 1).value;
      Choosing(us, chosen + [u], exclude + [u.outpoint], maxPerUtxo)
  {
    var u := GetUtxo(us, exclude, false, maxPerUtxo - 1).value;
    UtxoIsAvailable(us, exclude, false, maxPerUtxo - 1);
    OneMoreSlot(chosen, exclude, us, maxPerUtxo, u);
    OneFewer(us, exclude, maxPerUtxo - 1, u);
    EmptyUsedFirst(us, exclude, maxPerUtxo - 1);
  }

  /** Enough slots for the amounts, and enough empty outputs for amounts and rights together. */
  predicate IfaFits(us: seq<LocalUnspent>, amounts: nat, rights: nat, maxPerUtxo: nat)
    requires maxPerUtxo > 0
  {
    && amounts <= |GetAvailableAllocations(us, [], maxPerUtxo - 1)|
    && (rights == 0 || amounts + rights <= Empties(us, []))
  }

  /** A way to place amounts and rights that respects every limit. */
  ghost predicate Placement(us: seq<LocalUnspent>, forAmounts: seq<LocalUnspent>, forRights: seq<LocalUnspent>,
                            maxPerUtxo: nat)
    requires maxPerUtxo > 0
  {
    && DistinctOutpoints(forAmounts + forRights)
    && (forall u | u in forAmounts :: u in GetAvailableAllocations(us, [], maxPerUtxo - 1))
    && (forall u | u in forRights :: u in GetAvailableAllocations(us, [], 0))
  }

  /**
   * An inflatable asset's amounts go first, onto empty outputs while there are any; its rights then need
   * empty ones of their own. It works out exactly when the outputs suffice in that order, even where
   * placing the amounts on loaded outputs would have left room for the rights.
   */
  method ChooseIfaUtxos(us: seq<LocalUnspent>, amounts: seq<nat>, rights: seq<nat>, maxPerUtxo: nat)
    returns (r: Option<(seq<LocalUnspent>, seq<LocalUnspent>)>)
    requires DistinctOutpoints(us) && maxPerUtxo > 0
    ensures r.Some? <==> IfaFits(us, |amounts|, |rights|, maxPerUtxo)
    ensures r.Some? ==>
      && |r.value.0| == |amounts| && |r.value.1| == |rights|
      && Placement(us, r.value.0, r.value.1, maxPerUtxo)
  {
    var forAmounts, exclude := ChooseIssueUtxos(us, amounts, maxPerUtxo);
    if forAmounts.None? {
      return None;
    }
    var forRights := PlaceRights(us, forAmounts.value, exclude, rights, maxPerUtxo);
    if forRights.None? {
      return None;
    }
    r := Some((forAmounts.value, forRights.value));
  }

  /** Rights already placed after the amounts: each on an output that was empty. */
  ghost predicate RightsPlaced(us: seq<LocalUnspent>, chosen: seq<LocalUnspent>, forRights: seq<LocalUnspent>,
                               used: seq<Outpoint>, maxPerUtxo: nat)
    requires maxPerUtxo > 0
  {
    && Slots(chosen + forRights, used, us, maxPerUtxo)
    && forall u | u in forRights :: u in GetAvailableAllocations(us, [], 0)
  }

  lemma OneMoreRight(us: seq<LocalUnspent>, chosen: seq<LocalUnspent>, forRights: seq<LocalUnspent>,
                     used: seq<Outpoint>, maxPerUtxo: nat, u: LocalUnspent)
    requires maxPerUtxo > 0 && RightsPlaced(us, chosen, forRights, used, maxPerUtxo)
    requires u in GetAvailableAllocations(us, used, 0)
    ensures RightsPlaced(us, chosen, forRights + [u], used + [u.outpoint], maxPerUtxo)
  {
    AvailableMember(us, used, 0, u);
    AvailableMember(us, used, maxPerUtxo - 1, u);
    AvailableMember(us, [], 0, u);
    OneMoreSlot(chosen + forRights, used, us, maxPerUtxo, u);
    assert chosen + forRights + [u] == chosen + (forRights + [u]);
  }

  /** Every right needs an empty output of its own. */
  method PlaceRights(us: seq<LocalUnspent>, chosen: seq<LocalUnspent>, exclude: seq<Outpoint>, rights: seq<nat>,
                     maxPerUtxo: nat)
    returns (r: Option<seq<LocalUnspent>>)
    requires DistinctOutpoints(us) && maxPerUtxo > 0 && Slots(chosen, exclude, us, maxPerUtxo)
    ensures r.Some? <==> |rights| <= Empties(us, exclude)
    ensures r.Some? ==> |r.value| == |rights| && DistinctOutpoints(chosen + r.value)
    ensures r.Some? ==> forall u | u in r.value :: u in GetAvailableAllocations(us, [], 0)
  {
    var used, forRights := exclude, [];
    assert chosen + forRights == chosen;
    for i := 0 to |rights|
      invariant |forRights| == i && RightsPlaced(us, chosen, forRights, used, maxPerUtxo)
      invariant Empties(us, used) + i == Empties(us, exclude)
    {
      UtxoIsAvailable(us, used, false, 0);
      var utxo := GetUtxo(us, used, false, 0);
      if utxo.None? {
        return None;
      }
      OneMoreRight(us, chosen, forRights, used, maxPerUtxo, utxo.value);
      OneFewer(us, used, 0, utxo.value);
      used := used + [utxo.value.outpoint];
      forRights := forRights + [utxo.value];
    }
    r := Some(forRights);
  }

  // ---------------------------------------------------------------- when there is room at all

  lemma {:induction false} FilterKeepsDistinct(us: seq<LocalUnspent>, p: LocalUnspent -> bool)
    requires DistinctOutpoints(us)
    ensures DistinctOutpoints(Filter(us, p))
  {
    if us != [] {
      var n := |us| - 1;
      FilterKeepsDistinct(us[..n], p);
      var before := Filter(us[..n], p);
      forall i | 0 <= i < |before|
        ensures before[i].outpoint != us[n].outpoint
      {
        FilterMember(us[..n], p, before[i]);
      }
    }
  }

  function OutpointsInOrder(us: seq<LocalUnspent>): seq<Outpoint>
  {
    seq(|us|, i requires 0 <= i < |us| => us[i].outpoint)
  }

  /** Taking empty outputs for rights leaves as many fewer for amounts. */
  lemma {:induction false} RightsTakeRoom(us: seq<LocalUnspent>, rights: seq<LocalUnspent>, maxPerUtxo: nat)
    requires DistinctOutpoints(us) && maxPerUtxo > 0 && DistinctOutpoints(rights)
    requires forall u | u in rights :: u in GetAvailableAllocations(us, [], 0)
    ensures |GetAvailableAllocations(us, OutpointsInOrder(rights), maxPerUtxo - 1)| + |rights|
         == |GetAvailableAllocations(us, [], maxPerUtxo - 1)|
  {
    if rights == [] {
      assert OutpointsInOrder(rights) == [];
    } else {
      var n := |rights| - 1;
      var last, taken := rights[n], OutpointsInOrder(rights[..n]);
      RightsTakeRoom(us, rights[..n], maxPerUtxo);
      AvailableMember(us, [], 0, last);
      AvailableMember(us, taken, maxPerUtxo - 1, last);
      OneFewer(us, taken, maxPerUtxo - 1, last);
      assert OutpointsInOrder(rights) == taken + [last.outpoint];
    }
  }

  ghost predicate HasPlacement(us: seq<LocalUnspent>, amounts: nat, rights: nat, maxPerUtxo: nat)
    requires maxPerUtxo > 0
  {
    exists a, r :: |a| == amounts && |r| == rights && Placement(us, a, r, maxPerUtxo)
  }

  lemma PlacedFits(us: seq<LocalUnspent>, forAmounts: seq<LocalUnspent>, forRights: seq<LocalUnspent>,
                   maxPerUtxo: nat)
    requires maxPerUtxo > 0 && Placement(us, forAmounts, forRights, maxPerUtxo)
    ensures |forRights| <= Empties(us, [])
    ensures |forAmounts| + |forRights| <= |GetAvailableAllocations(us, [], maxPerUtxo - 1)|
  {
    var both := forAmounts + forRights;
    forall u | u in forRights
      ensures u in GetAvailableAllocations(us, [], maxPerUtxo - 1)
    {
      AvailableMember(us, [], 0, u);
      AvailableMember(us, [], maxPerUtxo - 1, u);
    }
    assert forall i | 0 <= i < |forRights| :: forRights[i] == both[|forAmounts| + i];
    DistinctFits(forRights, GetAvailableAllocations(us, [], 0));
    DistinctFits(both, GetAvailableAllocations(us, [], maxPerUtxo - 1));
  }

  lemma RoomIsPlaced(us: seq<LocalUnspent>, amounts: nat, rights: nat, maxPerUtxo: nat)
    requires DistinctOutpoints(us) && maxPerUtxo > 0 && rights <= Empties(us, [])
    requires amounts + rights <= |GetAvailableAllocations(us, [], maxPerUtxo - 1)|
    ensures HasPlacement(us, amounts, rights, maxPerUtxo)
  {
    var r := GetAvailableAllocations(us, [], 0)[..rights];
    FilterKeepsDistinct(PruneAll(us), Allocatable([], 0));
    RightsTakeRoom(us, r, maxPerUtxo);
    var taken := OutpointsInOrder(r);
    var a := GetAvailableAllocations(us, taken, maxPerUtxo - 1)[..amounts];
    FilterKeepsDistinct(PruneAll(us), Allocatable(taken, maxPerUtxo - 1));
    forall u | u in a
      ensures u.outpoint !in taken && u in GetAvailableAllocations(us, [], maxPerUtxo - 1)
    {
      AvailableMember(us, taken, maxPerUtxo - 1, u);
      AvailableMember(us, [], maxPerUtxo - 1, u);
    }
    assert forall i | 0 <= i < |r| :: r[i].outpoint == taken[i];
    assert Placement(us, a, r, maxPerUtxo);
  }

  /** Amounts and rights have a valid placement if and only if the outputs suffice in number and in kind. */
  lemma HasPlacementIff(us: seq<LocalUnspent>, amounts: nat, rights: nat, maxPerUtxo: nat)
    requires DistinctOutpoints(us) && maxPerUtxo > 0
    ensures HasPlacement(us, amounts, rights, maxPerUtxo) <==>
      rights <= Empties(us, []) && amounts + rights <= |GetAvailableAllocations(us, [], maxPerUtxo - 1)|
  {
    if HasPlacement(us, amounts, rights, maxPerUtxo) {
      var a, r :| |a| == amounts && |r| == rights && Placement(us, a, r, maxPerUtxo);
      PlacedFits(us, a, r, maxPerUtxo);
    }
    if rights <= Empties(us, []) && amounts + rights <= |GetAvailableAllocations(us, [], maxPerUtxo - 1)| {
      RoomIsPlaced(us, amounts, rights, maxPerUtxo);
    }
  }

  /** What the fixed order of an issuance refuses although there is room: rights that amounts crowd out. */
  lemma RefusedWithRoomIff(us: seq<LocalUnspent>, amounts: nat, rights: nat, maxPerUtxo: nat)
    requires DistinctOutpoints(us) && maxPerUtxo > 0
    ensures HasPlacement(us, amounts, rights, maxPerUtxo) && !IfaFits(us, amounts, rights, maxPerUtxo) <==>
      0 < rights <= Empties(us, []) < amounts + rights <= |GetAvailableAllocations(us, [], maxPerUtxo - 1)|
  {
    HasPlacementIff(us, amounts, rights, maxPerUtxo);
  }

  /**
   * With one empty and one loaded output there is a placement for one amount and one right, yet they are
   * refused: the amount takes the empty output, and nothing is left for the right.
   */
  lemma RightsMayStarve(empty: LocalUnspent, loaded: LocalUnspent, maxPerUtxo: nat)
    requires maxPerUtxo > 0
    requires empty.outpoint != loaded.outpoint && empty.allocations == [] && empty.pendingBlinded == 0
    requires empty.exists_ && !empty.pendingWitness
    requires Pruned(loaded) == loaded && Allocatable([], maxPerUtxo - 1)(loaded) && 0 < Load()(loaded)
    ensures Placement([empty, loaded], [loaded], [empty], maxPerUtxo)
    ensures !IfaFits([empty, loaded], 1, 1, maxPerUtxo)
  {
    EmptyThenLoaded(empty, loaded, maxPerUtxo, maxPerUtxo - 1);
    EmptyThenLoaded(empty, loaded, maxPerUtxo, 0);
    assert [loaded] + [empty] == [loaded, empty];
  }

  lemma EmptyThenLoaded(empty: LocalUnspent, loaded: LocalUnspent, maxPerUtxo: nat, limit: nat)
    requires maxPerUtxo > 0 && limit < maxPerUtxo && (limit == 0 || limit == maxPerUtxo - 1)
    requires empty.allocations == [] && empty.pendingBlinded == 0 && empty.exists_ && !empty.pendingWitness
    requires Pruned(loaded) == loaded && Allocatable([], maxPerUtxo - 1)(loaded) && 0 < Load()(loaded)
    ensures GetAvailableAllocations([empty, loaded], [], limit) == if limit == 0 then [empty] else [empty, loaded]
  {
    var us := [empty, loaded];
    assert PruneAll(us) == us && us[..1] == [empty] && [empty][..0] == [];
    assert Filter([empty], Allocatable([], limit)) == [empty];
  }
}
