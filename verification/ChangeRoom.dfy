/** When a send that is worth enough still fails: its change has no output to go to. */
module ChangeRoom {

  import opened Common
  import opened Assignments
  import opened Selection
  import opened Issuance
  import opened RejectSearch
  import opened ChangeSeal
  import opened SendLoop
  import Funding

  // ---------------------------------------------------------------- room outside the inputs

  /** Every transaction pays bitcoins back, or some output takes change and can never be an input. */
  ghost predicate Roomy(unspents: seq<LocalUnspent>, world: World)
  {
    || (forall pass, s: set<Outpoint> :: world.build(pass)(s).Built? ==> world.build(pass)(s).change)
    || (exists u :: u in Spare(world.hosts, []) && u.outpoint !in OutpointsOf(unspents))
  }

  lemma {:induction false} SelectedFromCandidates(assets: seq<PreparedAsset>, unspents: seq<LocalUnspent>)
    requires forall p | p in assets :: multiset(p.spend.inputs) <= multiset(unspents)
    ensures forall o | o in SelectedInputs(assets) :: o in OutpointsOf(unspents)
  {
    if assets != [] {
      var n := |assets| - 1;
      SelectedFromCandidates(assets[..n], unspents);
      var last := assets[n].spend.inputs;
      forall o | o in OutpointList(last)
        ensures o in OutpointsOf(unspents)
      {
        var i :| 0 <= i < |last| && last[i].outpoint == o;
        assert last[i] in multiset(last);
        assert last[i] in multiset(unspents);
      }
    }
  }

  lemma {:induction false} GrownFromCandidates(unspents: seq<LocalUnspent>, start: seq<Outpoint>, used: seq<Outpoint>)
    requires Funding.Grown(unspents, start, used)
    requires forall o | o in start :: o in OutpointsOf(unspents)
    ensures forall o | o in used :: o in OutpointsOf(unspents)
  {
    forall o | o in used
      ensures o in OutpointsOf(unspents)
    {
      var i :| 0 <= i < |used| && used[i] == o;
      if i >= |start| {
        assert Funding.LargestFree(unspents, used[..i], used[i]);
        var u :| u in Funding.Free(unspents, used[..i]) && u.outpoint == o;
        AvailableMember(unspents, used[..i], 0, u);
        var k :| 0 <= k < |unspents| && Pruned(unspents[k]) == u;
        assert unspents[k] in unspents && unspents[k].outpoint == o;
      } else {
        assert o == start[i];
      }
    }
  }

  lemma {:induction false} RoomIsFound(unspents: seq<LocalUnspent>, world: World, pass: nat, inputs: seq<Outpoint>)
    requires Roomy(unspents, world) && world.build(pass)(Funding.ToSet(inputs)).Built?
    requires forall o | o in inputs :: o in OutpointsOf(unspents)
    ensures world.SealOver(pass, inputs).Some?
  {
    SealFoundIff(world.hosts, world.HasChange(pass, inputs), inputs);
    if !world.HasChange(pass, inputs) {
      var u :| u in Spare(world.hosts, []) && u.outpoint !in OutpointsOf(unspents);
      AvailableMember(world.hosts.all, [], world.hosts.maxAllocations, u);
      AvailableMember(world.hosts.all, inputs, world.hosts.maxAllocations, u);
    }
  }

  /** With such room, and bitcoins, success is a matter of the assets alone. */
  lemma {:induction false} RoomySendSucceedsIffClean(
      r: SendResult, requests: seq<AssetRequest>, unspents: seq<LocalUnspent>, stock: seq<Holding>, world: World)
    requires ValidSend(requests, unspents, stock) && world.WellFormed()
    requires Outcome(r, requests, unspents, stock, world)
    requires Steady(world) && Indexed(requests, stock, world) && Solvent(unspents, world) && Roomy(unspents, world)
    ensures r.Prepared? <==> forall req | req in requests :: CleanCovers(req, unspents, stock, world)
  {
    SolventSendSucceedsIffClean(r, requests, unspents, stock, world);
    if r.NoChangeSlot? {
      forall p | p in r.assets
        ensures multiset(p.spend.inputs) <= multiset(unspents)
      {
        var i :| 0 <= i < |r.assets| && r.assets[i] == p;
        assert Serves(r.assets[i], requests[i], unspents, stock);
      }
      SelectedFromCandidates(r.assets, unspents);
      GrownFromCandidates(unspents, SelectedInputs(r.assets), r.inputs);
      RoomIsFound(unspents, world, r.pass, r.inputs);
    }
  }

  // ---------------------------------------------------------------- no room

  /** One output is all there is, and no transaction pays bitcoins back. */
  ghost predicate OnlyOutput(u: LocalUnspent, world: World)
  {
    world.hosts.all == [u] && forall pass, s: set<Outpoint> :: world.build(pass)(s) == Funding.Built(false)
  }

  /** What the output holds of the asset. */
  function HeldOf(asset: AssetId, u: LocalUnspent, stock: seq<Holding>): int
  {
    Sum(AssignmentsFor(stock, asset, {u.outpoint}), FungibleState())
  }

  /** The output holds what is asked for and something besides: more of the asset, or another one. */
  ghost predicate HoldsMore(asset: AssetId, n: nat, u: LocalUnspent, stock: seq<Holding>)
  {
    || n < HeldOf(asset, u, stock)
    || (n == HeldOf(asset, u, stock) && exists h :: h in stock && h.outpoint == u.outpoint && h.asset != asset)
  }

  lemma {:induction false} OnlyInput(inputs: seq<LocalUnspent>, u: LocalUnspent)
    requires multiset(inputs) <= multiset([u]) && inputs != []
    ensures OutpointsOf(inputs) == {u.outpoint} && u.outpoint in OutpointList(inputs)
  {
    forall v | v in inputs
      ensures v == u
    {
      assert v in multiset(inputs);
    }
    assert inputs[0] in inputs;
    assert inputs[0] == u && OutpointList(inputs)[0] == u.outpoint;
  }

  lemma SoleIsFull(u: LocalUnspent, inputs: seq<Outpoint>, maxAllocations: nat)
    requires u.outpoint in inputs
    ensures GetAvailableAllocations([u], inputs, maxAllocations) == []
  {
    var spare := GetAvailableAllocations([u], inputs, maxAllocations);
    if spare != [] {
      AvailableMember([u], inputs, maxAllocations, spare[0]);
    }
  }

  lemma {:induction false} NothingServed(p: PreparedAsset, req: AssetRequest, unspents: seq<LocalUnspent>,
                                         stock: seq<Holding>)
    requires Serves(p, req, unspents, stock) && p.spend.inputs == []
    ensures Sum(p.inputs, FungibleState()) == 0
  {
    NoneHeld(req.asset, stock);
    assert |multiset(p.inputs) + multiset(p.extra)| == 0;
    assert p.inputs == [];
  }

  /** The only output is an input, so nothing can be placed on it. */
  lemma {:induction false} OnlyOutputIsSpent(p: PreparedAsset, req: AssetRequest, n: nat, u: LocalUnspent,
                                             stock: seq<Holding>)
    requires Serves(p, req, [u], stock) && req.original == Collection(n, false, 0) && 0 < n
    ensures OutpointsOf(p.spend.inputs) == {u.outpoint} && u.outpoint in OutpointList(p.spend.inputs)
  {
    if p.spend.inputs == [] {
      NothingServed(p, req, [u], stock);
    }
    OnlyInput(p.spend.inputs, u);
  }

  lemma {:induction false} MoreReturns(p: PreparedAsset, req: AssetRequest, n: nat, u: LocalUnspent,
                                       stock: seq<Holding>, inputs: seq<Outpoint>)
    requires Serves(p, req, [u], stock) && req.original == Collection(n, false, 0) && 0 < n
    requires HoldsMore(req.asset, n, u, stock) && u.outpoint in inputs
    ensures !NothingReturns([req], [p], stock, inputs)
  {
    OnlyOutputIsSpent(p, req, n, u, stock);
    if NothingReturns([req], [p], stock, inputs) {
      assert p in [p];
      assert p.change == NOTHING && multiset(p.inputs) == multiset(AssignmentsFor(stock, req.asset, {u.outpoint}));
      SumPermutation(p.inputs, AssignmentsFor(stock, req.asset, {u.outpoint}), FungibleState());
    }
  }

  lemma {:induction false} OnlyOutputIsClean(req: AssetRequest, n: nat, u: LocalUnspent, stock: seq<Holding>,
                                             world: World)
    requires req == AssetRequest(req.asset, Collection(n, false, 0), false)
    requires HoldsMore(req.asset, n, u, stock)
    ensures CleanCovers(req, [u], stock, world)
  {
    var good := Untainted(req, OutpointsOf([u]), world);
    assert OutpointsOf([u]) == {u.outpoint};
    SumGate(stock, HeldIn(req.asset, {u.outpoint}), FungibleState());
    SumAgree(stock, Gate(HeldIn(req.asset, {u.outpoint}), FungibleState()), Gate(good, FungibleState()));
    SumNonNegative(stock, Gate(good, InflationState()));
  }

  lemma {:induction false} OnlyOutputHasNoSeal(r: SendResult, req: AssetRequest, n: nat, u: LocalUnspent,
                                               stock: seq<Holding>, world: World)
    requires OnlyOutput(u, world) && req.original == Collection(n, false, 0) && 0 < n
    requires HoldsMore(req.asset, n, u, stock) && Outcome(r, [req], [u], stock, world)
    ensures !r.Prepared?
  {
    if r.Prepared? {
      var p := r.assets[0];
      assert r.assets == [] + [p] && Serves(p, [req][0], [u], stock);
      assert SelectedInputs(r.assets) == SelectedInputs([]) + OutpointList(p.spend.inputs);
      OnlyOutputIsSpent(p, req, n, u, stock);
      assert u.outpoint in SelectedInputs(r.assets);
      var i :| 0 <= i < |SelectedInputs(r.assets)| && SelectedInputs(r.assets)[i] == u.outpoint;
      assert r.inputs[i] == u.outpoint;
      SoleIsFull(u, r.inputs, world.hosts.maxAllocations);
      SealFoundIff(world.hosts, world.HasChange(r.pass, r.inputs), r.inputs);
      MoreReturns(p, req, n, u, stock, r.inputs);
      SealedWhereNeeded(r, [req], [u], stock, world);
    }
  }

  /**
   * Then every send fails, although the output is worth the request and pays for the transaction: be it for
   * change, for a leftover opout of the asset, or for another asset on the output.
   */
  lemma {:induction false} OnlyOutputLeavesNoRoom(
      r: SendResult, req: AssetRequest, n: nat, u: LocalUnspent, stock: seq<Holding>, world: World)
    requires OnlyOutput(u, world) && req == AssetRequest(req.asset, Collection(n, false, 0), false) && 0 < n
    requires HoldsMore(req.asset, n, u, stock)
    requires ValidSend([req], [u], stock) && world.WellFormed() && Steady(world)
    requires Outcome(r, [req], [u], stock, world)
    ensures r.NoChangeSlot? && CleanCovers(req, [u], stock, world) && Solvent([u], world)
  {
    OnlyOutputIsClean(req, n, u, stock, world);
    OnlyOutputHasNoSeal(r, req, n, u, stock, world);
    SolventSendSucceedsIffClean(r, [req], [u], stock, world);
  }

  /** An exact request from the only output, which hosts one more opout of the asset: the leftover has no place. */
  lemma {:induction false} LeftoverLeavesNoRoom(
      r: SendResult, req: AssetRequest, u: LocalUnspent, h: Holding, g: Holding, world: World)
    requires OnlyOutput(u, world) && h.state.Amount? && g.state.Amount? && 0 < h.state.amount && 0 < g.state.amount
    requires h.opout.ty.OsAsset? && g.opout.ty.OsAsset? && h.outpoint == g.outpoint == u.outpoint && h.asset == g.asset
    requires req == AssetRequest(h.asset, Collection(h.state.amount, false, 0), false)
    requires ValidSend([req], [u], [h, g]) && world.WellFormed() && Steady(world)
    requires Outcome(r, [req], [u], [h, g], world)
    ensures r.NoChangeSlot? && CleanCovers(req, [u], [h, g], world)
  {
    TwoHeld(h, g, u);
    OnlyOutputLeavesNoRoom(r, req, h.state.amount, u, [h, g], world);
  }

  lemma {:induction false} TwoHeld(h: Holding, g: Holding, u: LocalUnspent)
    requires h.outpoint == g.outpoint == u.outpoint && h.asset == g.asset
    ensures HeldOf(h.asset, u, [h, g]) == FungibleState()(h) + FungibleState()(g)
  {
    FilterTwo(h, g, HeldIn(h.asset, {u.outpoint}));
    assert [h] + [g] == [h, g];
    SumTwo(h, g, FungibleState());
  }

  /** Part of what the only output's one opout is worth: the change has no place. */
  lemma {:induction false} SoleOutputLeavesNoRoom(
      r: SendResult, req: AssetRequest, u: LocalUnspent, h: Holding, n: nat, world: World)
    requires OnlyOutput(u, world) && req == AssetRequest(h.asset, Collection(n, false, 0), false)
    requires h.outpoint == u.outpoint && h.opout.ty.OsAsset? && h.state.Amount? && 0 < n < h.state.amount
    requires ValidSend([req], [u], [h]) && world.WellFormed() && Steady(world)
    requires Outcome(r, [req], [u], [h], world)
    ensures r.NoChangeSlot? && CleanCovers(req, [u], [h], world) && Solvent([u], world)
  {
    OneHeld(h, u);
    OnlyOutputLeavesNoRoom(r, req, n, u, [h], world);
  }

  lemma {:induction false} OneHeld(h: Holding, u: LocalUnspent)
    requires h.outpoint == u.outpoint
    ensures HeldOf(h.asset, u, [h]) == FungibleState()(h)
  {
    FilterOne(h, HeldIn(h.asset, {u.outpoint}));
    SumOne(h, FungibleState());
  }
}
