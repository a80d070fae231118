/** Balances derived from coloring rows, transfer statuses and spent flags. */
module Balances {

  import opened Common
  import opened Assignments
  import opened Selection

  datatype ColoringType = Receive | Issue | Input | Change

  datatype Txo = Txo(outpoint: Outpoint, spent: bool, exists_: bool, pendingWitness: bool, btcAmount: nat)

  /** An amount of an asset placed on, or taken from, a transaction output by a batch transfer. */
  datatype Coloring = Coloring(txo: nat, batch: nat, asset: AssetId, kind: ColoringType, assignment: Assignment)
  {
    predicate Incoming()
    {
      !kind.Input?
    }
  }

  /**
   * A batch transfer: for outgoing ones, the outputs its transaction spends and creates; for incoming
   * ones, the output a blind invoice points to, or what a witness invoice asked for.
   */
  datatype Batch = Batch(
    status: TransferStatus, incoming: bool, spends: set<nat>, creates: set<nat>,
    blinded: Option<nat>, requested: Option<(AssetId, nat)>)
  {
    /** Outgoing and not yet broadcast. */
    predicate Live()
    {
      !incoming && (status.Initiated? || status.WaitingCounterparty?)
    }
  }

  datatype Db = Db(txos: seq<Txo>, batches: seq<Batch>, colorings: seq<Coloring>)
  {
    ghost predicate Valid()
    {
      && (forall c | c in colorings :: c.txo < |txos| && c.batch < |batches|)
      && (forall b, t | b in batches && (t in b.spends || t in b.creates) :: t < |txos|)
      && (forall b | b in batches :: b.blinded.Some? ==> b.blinded.value < |txos|)
    }

    function StatusOf(b: nat): TransferStatus
    {
      if b < |batches| then batches[b].status else Failed
    }

    predicate SpentAt(t: nat)
    {
      t < |txos| && txos[t].spent
    }

    /** The view of a coloring that balances are computed from. */
    function AllocationOf(c: Coloring): LocalRgbAllocation
    {
      LocalRgbAllocation(Some(c.asset), c.assignment, StatusOf(c.batch), c.Incoming(), SpentAt(c.txo))
    }

    function Allocations(t: nat): seq<LocalRgbAllocation>
    {
      MapColorings(Filter(colorings, OnTxo(t)))
    }

    function MapColorings(cs: seq<Coloring>): seq<LocalRgbAllocation>
    {
      if cs == [] then [] else MapColorings(cs[..|cs| - 1]) + [AllocationOf(cs[|cs| - 1])]
    }

    /** Blind invoices waiting on an output. */
    function PendingBlinded(t: nat): nat
    {
      |Filter(batches, WaitsOn(t))|
    }

    function Row(t: nat): LocalUnspent
      requires t < |txos|
    {
      LocalUnspent(txos[t].outpoint, txos[t].spent, txos[t].exists_, txos[t].pendingWitness, txos[t].btcAmount,
                   Allocations(t), PendingBlinded(t))
    }

    /** All outputs with what they host. */
    function Rows(): seq<LocalUnspent>
    {
      seq(|txos|, t requires 0 <= t < |txos| => Row(t))
    }
  }

  function OnTxo(t: nat): Coloring -> bool
  {
    (c: Coloring) => c.txo == t
  }

  function WaitsOn(t: nat): Batch -> bool
  {
    (b: Batch) => b.incoming && b.status.WaitingCounterparty? && b.blinded == Some(t)
  }

  // ---------------------------------------------------------------- the balance

  /** Amount of an allocation of the asset, if it is of the given sort. */
  function SettledAmount(asset: AssetId): LocalRgbAllocation -> int
  {
    (a: LocalRgbAllocation) => if a.asset == Some(asset) && a.IsSettled() then a.assignment.MainAmount() else 0
  }

  function PendingIn(asset: AssetId): LocalRgbAllocation -> int
  {
    (a: LocalRgbAllocation) =>
      if a.asset == Some(asset) && !a.txoSpent && a.incoming && a.status.Pending() then a.assignment.MainAmount() else 0
  }

  function PendingOut(asset: AssetId): LocalRgbAllocation -> int
  {
    (a: LocalRgbAllocation) =>
      if a.asset == Some(asset) && !a.incoming && a.status.Pending() then a.assignment.MainAmount() else 0
  }

  /** Sum of f over what each output hosts. */
  function OnRow(f: LocalRgbAllocation -> int): LocalUnspent -> int
  {
    (u: LocalUnspent) => Sum(u.allocations, f)
  }

  /** Amounts that witness invoices asked for, once their transaction is out. */
  function WitnessPending(asset: AssetId): Batch -> int
  {
    (b: Batch) =>
      if b.incoming && b.status.WaitingConfirmations? && b.requested.Some? && b.requested.value.0 == asset
      then b.requested.value.1 else 0
  }

  /** An output whose settled allocations cannot be spent now. */
  predicate IsUnspendable(u: LocalUnspent)
  {
    if u.spent
    then exists a | a in u.allocations :: !a.incoming && a.status.WaitingConfirmations?
    else u.pendingBlinded > 0
         || exists a | a in u.allocations :: (!a.incoming && !a.status.Failed?) || (a.incoming && a.status.Pending())
  }

  function UnspendableOn(asset: AssetId): LocalUnspent -> int
  {
    (u: LocalUnspent) => if IsUnspendable(u) then Sum(u.allocations, SettledAmount(asset)) else 0
  }

  /** future and spendable are integers here; the wallet panics if one is negative. */
  datatype Balance = Balance(settled: int, future: int, spendable: int)

  function GetAssetBalance(db: Db, asset: AssetId): Balance
  {
    var settled := Sum(db.Rows(), OnRow(SettledAmount(asset)));
    var pendingIn := Sum(db.Rows(), OnRow(PendingIn(asset))) + Sum(db.batches, WitnessPending(asset));
    var pendingOut := Sum(db.Rows(), OnRow(PendingOut(asset)));
    Balance(settled, settled + (pendingIn - pendingOut), settled - Sum(db.Rows(), UnspendableOn(asset)))
  }

  /** Unspendable allocations are a subset of settled ones: the subtraction never fails, in any state. */
  lemma SpendableWithinSettled(db: Db, asset: AssetId)
    ensures 0 <= GetAssetBalance(db, asset).spendable <= GetAssetBalance(db, asset).settled
  {
    forall u | u in db.Rows()
      ensures 0 <= UnspendableOn(asset)(u) <= OnRow(SettledAmount(asset))(u)
    {
      SumNonNegative(u.allocations, SettledAmount(asset));
    }
    SumNonNegative(db.Rows(), UnspendableOn(asset));
    SumMonotone(db.Rows(), UnspendableOn(asset), OnRow(SettledAmount(asset)));
  }

  // ---------------------------------------------------------------- balances over colorings

  /** Weight of a coloring under f. */
  function Weigh(db: Db, f: LocalRgbAllocation -> int): Coloring -> int
  {
    (c: Coloring) => f(db.AllocationOf(c))
  }

  lemma {:induction false} MappedSum(db: Db, cs: seq<Coloring>, f: LocalRgbAllocation -> int)
    ensures Sum(db.MapColorings(cs), f) == Sum(cs, Weigh(db, f))
  {
    if cs != [] {
      MappedSum(db, cs[..|cs| - 1], f);
      SumAppend(db.MapColorings(cs[..|cs| - 1]), db.AllocationOf(cs[|cs| - 1]), f);
    }
  }

  lemma {:induction false} MappedMember(db: Db, cs: seq<Coloring>, a: LocalRgbAllocation)
    ensures a in db.MapColorings(cs) <==> exists c :: c in cs && db.AllocationOf(c) == a
  {
    if cs != [] {
      var n := |cs| - 1;
      MappedMember(db, cs[..n], a);
      assert cs == cs[..n] + [cs[n]];
    }
  }

  lemma AllocationMember(db: Db, t: nat, a: LocalRgbAllocation)
    ensures a in db.Allocations(t) <==> exists c :: c in db.colorings && c.txo == t && db.AllocationOf(c) == a
  {
    MappedMember(db, Filter(db.colorings, OnTxo(t)), a);
    forall c: Coloring
      ensures c in Filter(db.colorings, OnTxo(t)) <==> c in db.colorings && c.txo == t
    {
      FilterMember(db.colorings, OnTxo(t), c);
    }
  }

  function Below(k: nat): Coloring -> bool
  {
    (c: Coloring) => c.txo < k
  }

  /** What one output hosts, coloring by coloring. */
  lemma HostedSum(db: Db, t: nat, f: LocalRgbAllocation -> int)
    ensures Sum(db.Allocations(t), f) == Sum(db.colorings, Gate(OnTxo(t), Weigh(db, f)))
  {
    MappedSum(db, Filter(db.colorings, OnTxo(t)), f);
    SumGate(db.colorings, OnTxo(t), Weigh(db, f));
  }

  lemma BelowNext(db: Db, k: nat, w: Coloring -> int)
    ensures Sum(db.colorings, Gate(Below(k + 1), w))
         == Sum(db.colorings, Gate(Below(k), w)) + Sum(db.colorings, Gate(OnTxo(k), w))
  {
    SumAdditive(db.colorings, Gate(Below(k), w), Gate(OnTxo(k), w), Gate(Below(k + 1), w));
  }

  lemma RowsNext(db: Db, k: nat, f: LocalUnspent -> int)
    requires k < |db.txos|
    ensures Sum(db.Rows()[..k + 1], f) == Sum(db.Rows()[..k], f) + f(db.Row(k))
  {
    assert db.Rows()[..k + 1] == db.Rows()[..k] + [db.Row(k)];
    SumAppend(db.Rows()[..k], db.Row(k), f);
  }

  /** Summing output by output is summing over all colorings. */
  lemma {:induction false} RowsSumPrefix(db: Db, k: nat, f: LocalRgbAllocation -> int)
    requires k <= |db.txos|
    ensures Sum(db.Rows()[..k], OnRow(f)) == Sum(db.colorings, Gate(Below(k), Weigh(db, f)))
  {
    if k == 0 {
      SumZero(db.colorings, Gate(Below(0), Weigh(db, f)));
    } else {
      RowsSumPrefix(db, k - 1, f);
      RowsNext(db, k - 1, OnRow(f));
      HostedSum(db, k - 1, f);
      BelowNext(db, k - 1, Weigh(db, f));
    }
  }

  lemma RowsSum(db: Db, f: LocalRgbAllocation -> int)
    requires db.Valid()
    ensures Sum(db.Rows(), OnRow(f)) == Sum(db.colorings, Weigh(db, f))
  {
    assert db.Rows()[..|db.txos|] == db.Rows();
    RowsSumPrefix(db, |db.txos|, f);
    SumAgree(db.colorings, Gate(Below(|db.txos|), Weigh(db, f)), Weigh(db, f));
  }

  /** What a coloring of the asset adds to the future balance. */
  function WeightOf(db: Db, asset: AssetId, c: Coloring): int
  {
    if c.asset != asset then 0
    else if c.Incoming() then
      if !db.SpentAt(c.txo) && !db.StatusOf(c.batch).Failed? then c.assignment.MainAmount() else 0
    else
      var s := db.StatusOf(c.batch);
      if s.Settled? || s.Failed? || (s.WaitingConfirmations? && db.SpentAt(c.txo)) then 0
      else 0 - c.assignment.MainAmount()
  }

  function FutureWeight(db: Db, asset: AssetId): Coloring -> int
  {
    (c: Coloring) => WeightOf(db, asset, c)
  }

  function SettledOrPending(db: Db, asset: AssetId): Coloring -> int
  {
    (c: Coloring) => SettledAmount(asset)(db.AllocationOf(c)) + PendingIn(asset)(db.AllocationOf(c))
  }

  lemma WeightSplits(db: Db, asset: AssetId, c: Coloring)
    ensures SettledOrPending(db, asset)(c) == WeightOf(db, asset, c) + PendingOut(asset)(db.AllocationOf(c))
  {
    var a := db.AllocationOf(c);
    assert SettledAmount(asset)(a) == if c.asset == asset && a.IsSettled() then c.assignment.MainAmount() else 0;
  }

  /** The future balance, coloring by coloring. */
  lemma FutureByColoring(db: Db, asset: AssetId)
    requires db.Valid()
    ensures GetAssetBalance(db, asset).future
         == Sum(db.colorings, FutureWeight(db, asset)) + Sum(db.batches, WitnessPending(asset))
  {
    var s, i, o := Weigh(db, SettledAmount(asset)), Weigh(db, PendingIn(asset)), Weigh(db, PendingOut(asset));
    RowsSum(db, SettledAmount(asset));
    RowsSum(db, PendingIn(asset));
    RowsSum(db, PendingOut(asset));
    var si := SettledOrPending(db, asset);
    SumAdditive(db.colorings, s, i, si);
    forall c | c in db.colorings
      ensures si(c) == WeightOf(db, asset, c) + o(c)
    {
      WeightSplits(db, asset, c);
    }
    SumAdditive(db.colorings, FutureWeight(db, asset), o, si);
  }
}
