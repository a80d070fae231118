/** The spendable balance is what the input selection can really spend. */
module Spendable {

  import opened Common
  import opened Assignments
  import opened Selection
  import opened Balances
  import opened WalletRuns

  function IsUnspent(): LocalUnspent -> bool
  {
    (u: LocalUnspent) => !u.spent
  }

  /** Candidates of a transfer: the unspent outputs that it may use as inputs. */
  function Candidates(db: Db): seq<LocalUnspent>
  {
    GetInputUnspents(Filter(db.Rows(), IsUnspent()))
  }

  /** An asset without non-fungible pieces: NIA, CFA or IFA. */
  ghost predicate FungibleAsset(db: Db, asset: AssetId)
  {
    forall c | c in db.colorings && c.asset == asset :: c.assignment.Fungible? || c.assignment.InflationRight?
  }

  /** What the wallet's state machine guarantees about an unspent output. */
  ghost predicate WellPlaced(u: LocalUnspent, asset: AssetId)
  {
    && (forall a | a in u.allocations :: a.txoSpent == u.spent)
    && (forall a | a in u.allocations && a.asset == Some(asset) ::
          a.assignment.Fungible? || a.assignment.InflationRight?)
    && (!u.spent ==> forall a | a in u.allocations && !a.incoming && !a.status.Failed? :: a.Reserves())
    && (forall a | a in u.allocations && a.incoming && a.status.Settled? :: u.exists_ && !u.pendingWitness)
  }

  lemma ReachableIsWellPlaced(db: Db, asset: AssetId, t: nat)
    requires PlacedInv(db) && FungibleAsset(db, asset) && t < |db.txos|
    ensures WellPlaced(db.Row(t), asset)
  {
    forall a | a in db.Allocations(t)
      ensures exists c :: c in db.colorings && c.txo == t && db.AllocationOf(c) == a
    {
      AllocationMember(db, t, a);
    }
  }

  /** Settled and not held back by anything. */
  function SpendableOn(asset: AssetId): LocalUnspent -> int
  {
    (u: LocalUnspent) => if IsUnspendable(u) then 0 else Sum(u.allocations, SettledAmount(asset))
  }

  /** A candidate contributes its settled fungible amount, anything else nothing. */
  function CandidateAmount(asset: AssetId): LocalUnspent -> int
  {
    (u: LocalUnspent) => if !u.spent && InputUnspent(u) then FungibleOn(asset)(u) else 0
  }

  lemma NothingSettledElsewhere(u: LocalUnspent, asset: AssetId)
    requires WellPlaced(u, asset) && (u.spent || !InputUnspent(u))
    ensures SpendableOn(asset)(u) == 0
  {
    if !IsUnspendable(u) {
      SumZero(u.allocations, SettledAmount(asset));
    }
  }

  lemma CandidateIsSpendable(u: LocalUnspent, asset: AssetId)
    requires WellPlaced(u, asset) && !u.spent && InputUnspent(u)
    ensures SpendableOn(asset)(u) == FungibleOn(asset)(u)
  {
    assert !IsUnspendable(u);
    SumFilter(u.allocations, SettledFilter(asset), FungibleAmounts(), SettledAmount(asset));
  }

  /** Summed over the candidates, what selection sees is the spendable balance. */
  lemma CandidatesHoldSpendable(db: Db, asset: AssetId)
    requires forall u | u in db.Rows() :: WellPlaced(u, asset)
    ensures Sum(Candidates(db), FungibleOn(asset)) == GetAssetBalance(db, asset).spendable
  {
    var rows := db.Rows();
    SumAdditive(rows, SpendableOn(asset), UnspendableOn(asset), OnRow(SettledAmount(asset)));
    forall u | u in rows
      ensures SpendableOn(asset)(u) == CandidateAmount(asset)(u)
    {
      if u.spent || !InputUnspent(u) {
        NothingSettledElsewhere(u, asset);
      } else {
        CandidateIsSpendable(u, asset);
      }
    }
    SumAgree(rows, SpendableOn(asset), CandidateAmount(asset));
    var ready := (u: LocalUnspent) => InputUnspent(u);
    SumGate(Filter(rows, IsUnspent()), ready, FungibleOn(asset));
    SumGate(rows, IsUnspent(), Gate(ready, FungibleOn(asset)));
    SumAgree(rows, Gate(IsUnspent(), Gate(ready, FungibleOn(asset))), CandidateAmount(asset));
  }

  lemma CandidatesAreFungible(db: Db, asset: AssetId)
    requires forall u | u in db.Rows() :: WellPlaced(u, asset)
    ensures Concrete(asset, Candidates(db)) && !SomeNonFungible(asset, Candidates(db))
  {
    forall u | u in Candidates(db)
      ensures u in db.Rows()
    {
      FilterMember(Filter(db.Rows(), IsUnspent()), (v: LocalUnspent) => InputUnspent(v), u);
      FilterMember(db.Rows(), IsUnspent(), u);
    }
    forall u, a | u in Candidates(db) && a in Filter(u.allocations, SettledFilter(asset))
      ensures a.assignment.Fungible? || a.assignment.InflationRight?
    {
      FilterMember(u.allocations, SettledFilter(asset), a);
    }
    forall u | u in Candidates(db)
      ensures NonFungibleOn(asset)(u) == 0
    {
      SumZero(Filter(u.allocations, SettledFilter(asset)), NonFungibles());
    }
    SumZero(Candidates(db), NonFungibleOn(asset));
  }

  /** What selection sees in a reachable state. */
  lemma ReachableCandidates(db: Db, asset: AssetId)
    requires PlacedInv(db) && FungibleAsset(db, asset)
    ensures Sum(Candidates(db), FungibleOn(asset)) == GetAssetBalance(db, asset).spendable
    ensures Concrete(asset, Candidates(db)) && !SomeNonFungible(asset, Candidates(db))
  {
    forall u | u in db.Rows()
      ensures WellPlaced(u, asset)
    {
      var t :| 0 <= t < |db.txos| && db.Rows()[t] == u;
      ReachableIsWellPlaced(db, asset, t);
    }
    CandidatesHoldSpendable(db, asset);
    CandidatesAreFungible(db, asset);
  }

  lemma SelectionIsLean(asset: AssetId, n: nat, unspents: seq<LocalUnspent>, spend: AssetSpend)
    requires Selects(asset, Collection(n, false, 0), unspents, spend) && !SomeNonFungible(asset, unspents)
    ensures n <= Sum(spend.inputs, FungibleOn(asset))
    ensures spend.inputs != [] ==> Sum(spend.inputs[..|spend.inputs| - 1], FungibleOn(asset)) < n
  {
    if spend.inputs != [] {
      AmountsNonNegative(asset, spend.inputs[..|spend.inputs| - 1]);
    }
  }

  lemma EnoughIff(asset: AssetId, n: nat, unspents: seq<LocalUnspent>)
    ensures Suffices(asset, Collection(n, false, 0), unspents) <==> n <= Sum(unspents, FungibleOn(asset))
  {
    AmountsNonNegative(asset, unspents);
  }

  /**
   * Selecting inputs worth n in a reachable state succeeds exactly when n is within the spendable
   * balance, and then no input is superfluous.
   */
  method SelectForAmount(db: Db, asset: AssetId, n: nat) returns (r: Result<AssetSpend, AssignmentsCollection>)
    requires PlacedInv(db) && FungibleAsset(db, asset)
    ensures r.Success? <==> n <= GetAssetBalance(db, asset).spendable
    ensures r.Success? ==>
      && n <= Sum(r.value.inputs, FungibleOn(asset))
      && (r.value.inputs != [] ==> Sum(r.value.inputs[..|r.value.inputs| - 1], FungibleOn(asset)) < n)
  {
    ReachableCandidates(db, asset);
    EnoughIff(asset, n, Candidates(db));
    r := SelectRgbInputs(asset, Collection(n, false, 0), Candidates(db));
    if r.Success? {
      SelectionIsLean(asset, n, Candidates(db), r.value);
    }
  }
}
