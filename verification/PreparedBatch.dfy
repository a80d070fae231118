/** What the preparation of a send hands to the database: a batch that takes no more than its inputs hold. */
module PreparedBatch {

  import opened Common
  import opened Assignments
  import opened Selection
  import opened Balances
  import opened SendLoop
  import Spendable
  import WalletRuns

  /** The assignment that an input coloring records for an opout. */
  function AssignmentOf(h: Holding): Assignment
  {
    match h.state
    case Amount(n) => if h.opout.ty.OsAsset? then Fungible(n) else InflationRight(n)
    case Data => NonFungible
  }

  /** All inputs chosen for the assets, one asset after the other. */
  function TakenBy(assets: seq<PreparedAsset>): seq<Holding>
  {
    if assets == [] then [] else TakenBy(assets[..|assets| - 1]) + assets[|assets| - 1].inputs
  }

  /** The outputs of the database, found by their outpoints. */
  ghost predicate DistinctTxos(db: Db)
  {
    forall s, t | 0 <= s < t < |db.txos| :: db.txos[s].outpoint != db.txos[t].outpoint
  }

  /** The rows saved for a prepared send: an input coloring per opout taken, every selected output spent. */
  ghost predicate Records(db: Db, e: WalletRuns.Event, assets: seq<PreparedAsset>)
  {
    && e.Begin?
    && |e.inputs| == |TakenBy(assets)|
    && (forall k | 0 <= k < |e.inputs| ::
          e.inputs[k].asset == TakenBy(assets)[k].asset && e.inputs[k].assignment == AssignmentOf(TakenBy(assets)[k]))
    && (forall p, t | p in assets && 0 <= t < |db.txos| && db.Row(t) in p.spend.inputs :: t in e.spends)
  }

  // ---------------------------------------------------------------- what the colorings on outputs are worth

  /** The outputs whose rows are among the given ones. */
  ghost function TxosOf(db: Db, us: seq<LocalUnspent>): set<nat>
  {
    set t: nat | t < |db.txos| && db.Row(t) in us
  }

  function OnTxos(ts: set<nat>): Coloring -> bool
  {
    (c: Coloring) => c.txo in ts
  }

  ghost predicate RowsOf(db: Db, us: seq<LocalUnspent>)
  {
    DistinctOutpoints(us) && forall u | u in us :: u in db.Rows()
  }

  lemma OneMoreTxo(db: Db, us: seq<LocalUnspent>, t: nat)
    requires DistinctTxos(db) && t < |db.txos| && DistinctOutpoints(us + [db.Row(t)])
    ensures TxosOf(db, us + [db.Row(t)]) == TxosOf(db, us) + {t} && t !in TxosOf(db, us)
  {
    var all := us + [db.Row(t)];
    forall s: nat | s < |db.txos| && db.Row(s) == db.Row(t)
      ensures s == t
    {
      assert db.Row(s).outpoint == db.txos[s].outpoint && db.Row(t).outpoint == db.txos[t].outpoint;
    }
    forall u | u in us
      ensures u != db.Row(t)
    {
      var i :| 0 <= i < |us| && us[i] == u;
      assert all[i].outpoint != all[|us|].outpoint;
    }
  }

  lemma IndexOf(db: Db, u: LocalUnspent) returns (t: nat)
    requires u in db.Rows()
    ensures t < |db.txos| && db.Row(t) == u
  {
    t :| 0 <= t < |db.Rows()| && db.Rows()[t] == u;
  }

  lemma {:induction false} OneMoreRow(db: Db, us: seq<LocalUnspent>, t: nat, f: LocalRgbAllocation -> int)
    requires DistinctTxos(db) && t < |db.txos| && DistinctOutpoints(us + [db.Row(t)])
    requires Sum(us, OnRow(f)) == Sum(db.colorings, Gate(OnTxos(TxosOf(db, us)), Weigh(db, f)))
    ensures Sum(us + [db.Row(t)], OnRow(f))
         == Sum(db.colorings, Gate(OnTxos(TxosOf(db, us + [db.Row(t)])), Weigh(db, f)))
  {
    var w := Weigh(db, f);
    SumAppend(us, db.Row(t), OnRow(f));
    HostedSum(db, t, f);
    OneMoreTxo(db, us, t);
    SumAdditive(db.colorings, Gate(OnTxos(TxosOf(db, us)), w), Gate(OnTxo(t), w),
                Gate(OnTxos(TxosOf(db, us) + {t}), w));
  }

  /** Summing over some rows is summing over the colorings on their outputs. */
  lemma {:induction false} SomeRowsSum(db: Db, us: seq<LocalUnspent>, f: LocalRgbAllocation -> int)
    requires DistinctTxos(db) && RowsOf(db, us)
    ensures Sum(us, OnRow(f)) == Sum(db.colorings, Gate(OnTxos(TxosOf(db, us)), Weigh(db, f)))
  {
    if us == [] {
      SumZero(db.colorings, Gate(OnTxos(TxosOf(db, [])), Weigh(db, f)));
    } else {
      var n := |us| - 1;
      assert us[n] in us;
      var t := IndexOf(db, us[n]);
      assert us == us[..n] + [db.Row(t)];
      SomeRowsSum(db, us[..n], f);
      OneMoreRow(db, us[..n], t, f);
    }
  }

  /** What is settled on the row is worth something. */
  ghost predicate OnlyWorth(u: LocalUnspent)
  {
    forall a | a in u.allocations && a.status.Settled? :: a.incoming && !a.txoSpent
  }

  lemma UnspentIsWorth(db: Db, t: nat)
    requires WalletRuns.PlacedInv(db) && t < |db.txos| && !db.txos[t].spent
    ensures OnlyWorth(db.Row(t))
  {
    forall a | a in db.Allocations(t) && a.status.Settled?
      ensures a.incoming && !a.txoSpent
    {
      AllocationMember(db, t, a);
    }
  }

  lemma SettledSplits(u: LocalUnspent, asset: AssetId)
    requires OnlyWorth(u) && forall a | a in u.allocations :: !a.txoSpent
    ensures OnRow(SettledAmount(asset))(u) == FungibleOn(asset)(u) + NonFungibleOn(asset)(u)
  {
    var keep := SettledFilter(asset);
    SumGate(u.allocations, keep, FungibleAmounts());
    SumGate(u.allocations, keep, NonFungibles());
    forall a | a in u.allocations
      ensures SettledAmount(asset)(a) == Gate(keep, FungibleAmounts())(a) + Gate(keep, NonFungibles())(a)
    {
      AmountSplits(asset, a);
    }
    SumAdditive(u.allocations, Gate(keep, FungibleAmounts()), Gate(keep, NonFungibles()), SettledAmount(asset));
  }

  lemma AmountSplits(asset: AssetId, a: LocalRgbAllocation)
    requires !a.txoSpent && (a.status.Settled? ==> a.incoming)
    ensures SettledAmount(asset)(a)
         == Gate(SettledFilter(asset), FungibleAmounts())(a) + Gate(SettledFilter(asset), NonFungibles())(a)
  {
    var settled := a.asset == Some(asset) && a.IsSettled();
    assert SettledFilter(asset)(a) == settled;
    assert SettledAmount(asset)(a) == if settled then a.assignment.MainAmount() else 0;
  }

  lemma RowSplits(db: Db, u: LocalUnspent, asset: AssetId)
    requires WalletRuns.PlacedInv(db) && u in db.Rows() && !u.spent
    ensures OnRow(SettledAmount(asset))(u) == FungibleOn(asset)(u) + NonFungibleOn(asset)(u)
  {
    var t := IndexOf(db, u);
    UnspentIsWorth(db, t);
    forall a | a in db.Allocations(t)
      ensures !a.txoSpent
    {
      AllocationMember(db, t, a);
    }
    SettledSplits(u, asset);
  }

  /** What unspent rows hold of an asset is live on the outputs that the batch spends. */
  lemma RowsAreLive(db: Db, us: seq<LocalUnspent>, spends: set<nat>, asset: AssetId)
    requires WalletRuns.PlacedInv(db) && DistinctTxos(db)
    requires RowsOf(db, us) && TxosOf(db, us) <= spends && forall u | u in us :: !u.spent
    ensures Sum(us, FungibleOn(asset)) + Sum(us, NonFungibleOn(asset))
         <= Sum(db.colorings, WalletRuns.LiveOn(db, spends, asset))
  {
    var ts := TxosOf(db, us);
    forall u | u in us
      ensures FungibleOn(asset)(u) + NonFungibleOn(asset)(u) == OnRow(SettledAmount(asset))(u)
    {
      RowSplits(db, u, asset);
    }
    SumAdditive(us, FungibleOn(asset), NonFungibleOn(asset), OnRow(SettledAmount(asset)));
    SomeRowsSum(db, us, SettledAmount(asset));
    var hosted := Gate(OnTxos(ts), Weigh(db, SettledAmount(asset)));
    var live := WalletRuns.LiveOn(db, spends, asset);
    forall c | c in db.colorings
      ensures hosted(c) <= live(c)
    {
      SettledIsLive(db, us, spends, asset, c);
    }
    SumMonotone(db.colorings, hosted, live);
  }

  lemma SettledIsLive(db: Db, us: seq<LocalUnspent>, spends: set<nat>, asset: AssetId, c: Coloring)
    requires TxosOf(db, us) <= spends && forall u | u in us :: !u.spent
    ensures Gate(OnTxos(TxosOf(db, us)), Weigh(db, SettledAmount(asset)))(c)
         <= WalletRuns.LiveOn(db, spends, asset)(c)
  {
    var a := db.AllocationOf(c);
    if c.txo in TxosOf(db, us) {
      assert db.Row(c.txo) in us && !db.txos[c.txo].spent;
      assert Weigh(db, SettledAmount(asset))(c) == SettledAmount(asset)(a);
      assert SettledAmount(asset)(a) == if c.asset == asset && a.IsSettled() then c.assignment.MainAmount() else 0;
    }
  }

  // ---------------------------------------------------------------- what the batch takes

  function MainOf(asset: AssetId): Holding -> int
  {
    (h: Holding) => if h.asset == asset then AssignmentOf(h).MainAmount() else 0
  }

  /** What is taken of a requested asset is at most what its selected outputs hold. */
  lemma {:induction false} TakenWithinSelected(p: PreparedAsset, req: AssetRequest, unspents: seq<LocalUnspent>,
                                               stock: seq<Holding>)
    requires DistinctOutpoints(unspents) && ValidRequest(req, unspents, stock) && Serves(p, req, unspents, stock)
    ensures Sum(p.inputs, MainOf(req.asset))
         <= Sum(p.spend.inputs, FungibleOn(req.asset)) + Sum(p.spend.inputs, NonFungibleOn(req.asset))
  {
    var held := AssignmentsFor(stock, req.asset, OutpointsOf(p.spend.inputs));
    SelectionIsDistinct(p.spend.inputs, unspents);
    SelectedHoldings(req.asset, p.spend.inputs, stock);
    var every := (h: Holding) => true;
    PartBelowGate(p.inputs, p.extra, held, every, MainOf(req.asset));
    forall h | h in held
      ensures FungibleState()(h) + DataState()(h) == Gate(every, MainOf(req.asset))(h)
    {
      FilterMember(stock, HeldIn(req.asset, OutpointsOf(p.spend.inputs)), h);
    }
    SumAdditive(held, FungibleState(), DataState(), Gate(every, MainOf(req.asset)));
  }

  lemma {:induction false} OthersTakeNone(p: PreparedAsset, req: AssetRequest, unspents: seq<LocalUnspent>,
                                          stock: seq<Holding>, asset: AssetId)
    requires DistinctOutpoints(unspents) && Serves(p, req, unspents, stock) && req.asset != asset
    ensures Sum(p.inputs, MainOf(asset)) == 0
  {
    ServedFromStock(p, req, unspents, stock);
    SumZero(p.inputs, MainOf(asset));
  }

  ghost predicate AllServed(assets: seq<PreparedAsset>, requests: seq<AssetRequest>, unspents: seq<LocalUnspent>,
                            stock: seq<Holding>)
  {
    && DistinctOutpoints(unspents) && |assets| == |requests|
    && (forall i, j | 0 <= i < j < |requests| :: requests[i].asset != requests[j].asset)
    && forall i | 0 <= i < |requests| :: Serves(assets[i], requests[i], unspents, stock)
  }

  function TakenFrom(asset: AssetId): PreparedAsset -> int
  {
    (p: PreparedAsset) => Sum(p.inputs, MainOf(asset))
  }

  lemma {:induction false} TakenSum(assets: seq<PreparedAsset>, asset: AssetId)
    ensures Sum(TakenBy(assets), MainOf(asset)) == Sum(assets, TakenFrom(asset))
  {
    if assets != [] {
      var n := |assets| - 1;
      TakenSum(assets[..n], asset);
      SumConcat(TakenBy(assets[..n]), assets[n].inputs, MainOf(asset));
    }
  }

  lemma {:induction false} SumAllButOne<T>(xs: seq<T>, f: T -> int, i: nat)
    requires i < |xs| && forall j | 0 <= j < |xs| && j != i :: f(xs[j]) == 0
    ensures Sum(xs, f) == f(xs[i])
  {
    var n := |xs| - 1;
    if i == n {
      forall x | x in xs[..n]
        ensures f(x) == 0
      {
        var j :| 0 <= j < n && xs[j] == x;
      }
      SumZero(xs[..n], f);
    } else {
      SumAllButOne(xs[..n], f, i);
    }
  }

  /** Of a requested asset the batch takes what was chosen for it, the others take none of it. */
  lemma {:induction false} TakenOfOne(assets: seq<PreparedAsset>, requests: seq<AssetRequest>,
                                      unspents: seq<LocalUnspent>, stock: seq<Holding>, i: nat)
    requires AllServed(assets, requests, unspents, stock) && i < |requests|
    ensures Sum(TakenBy(assets), MainOf(requests[i].asset)) == Sum(assets[i].inputs, MainOf(requests[i].asset))
  {
    var asset := requests[i].asset;
    TakenSum(assets, asset);
    forall j | 0 <= j < |assets| && j != i
      ensures TakenFrom(asset)(assets[j]) == 0
    {
      OthersTakeNone(assets[j], requests[j], unspents, stock, asset);
    }
    SumAllButOne(assets, TakenFrom(asset), i);
  }

  /** Of an asset that was not requested it takes nothing. */
  lemma {:induction false} TakenOfNone(assets: seq<PreparedAsset>, requests: seq<AssetRequest>,
                                       unspents: seq<LocalUnspent>, stock: seq<Holding>, asset: AssetId)
    requires AllServed(assets, requests, unspents, stock)
    requires forall i | 0 <= i < |requests| :: requests[i].asset != asset
    ensures Sum(TakenBy(assets), MainOf(asset)) == 0
  {
    TakenSum(assets, asset);
    forall p | p in assets
      ensures TakenFrom(asset)(p) == 0
    {
      var j :| 0 <= j < |assets| && assets[j] == p;
      OthersTakeNone(assets[j], requests[j], unspents, stock, asset);
    }
    SumZero(assets, TakenFrom(asset));
  }

  lemma {:induction false} EntriesSum(entries: seq<WalletRuns.Entry>, taken: seq<Holding>, asset: AssetId)
    requires |entries| == |taken|
    requires forall k | 0 <= k < |entries| ::
      entries[k].asset == taken[k].asset && entries[k].assignment == AssignmentOf(taken[k])
    ensures Sum(entries, WalletRuns.AmountOf(asset)) == Sum(taken, MainOf(asset))
  {
    if entries != [] {
      EntriesSum(entries[..|entries| - 1], taken[..|taken| - 1], asset);
    }
  }

  lemma CandidatesAreRows(db: Db)
    ensures forall u | u in Spendable.Candidates(db) :: u in db.Rows() && !u.spent
  {
    forall u | u in Spendable.Candidates(db)
      ensures u in db.Rows() && !u.spent
    {
      FilterMember(Filter(db.Rows(), Spendable.IsUnspent()), (v: LocalUnspent) => InputUnspent(v), u);
      FilterMember(db.Rows(), Spendable.IsUnspent(), u);
    }
  }

  lemma {:induction false} RequestedWithinHeld(db: Db, e: WalletRuns.Event, i: nat, assets: seq<PreparedAsset>,
                                               requests: seq<AssetRequest>, stock: seq<Holding>)
    requires WalletRuns.PlacedInv(db) && DistinctTxos(db) && ValidSend(requests, Spendable.Candidates(db), stock)
    requires AllServed(assets, requests, Spendable.Candidates(db), stock) && Records(db, e, assets)
    requires i < |requests|
    ensures Sum(assets[i].inputs, MainOf(requests[i].asset))
         <= Sum(db.colorings, WalletRuns.LiveOn(db, e.spends, requests[i].asset))
  {
    var us := assets[i].spend.inputs;
    assert requests[i] in requests && assets[i] in assets;
    CandidatesAreRows(db);
    SelectionIsDistinct(us, Spendable.Candidates(db));
    TakenWithinSelected(assets[i], requests[i], Spendable.Candidates(db), stock);
    RowsAreLive(db, us, e.spends, requests[i].asset);
  }

  /** What a run of the wallet asks of a begun batch, every prepared send meets, whatever its assets. */
  lemma {:induction false} PreparedDeclares(db: Db, e: WalletRuns.Event, assets: seq<PreparedAsset>,
                                            requests: seq<AssetRequest>, stock: seq<Holding>)
    requires WalletRuns.PlacedInv(db) && DistinctTxos(db) && ValidSend(requests, Spendable.Candidates(db), stock)
    requires AllServed(assets, requests, Spendable.Candidates(db), stock) && Records(db, e, assets)
    ensures WalletRuns.Declares(db, e)
  {
    forall asset: AssetId
      ensures Sum(e.inputs, WalletRuns.AmountOf(asset)) <= Sum(db.colorings, WalletRuns.LiveOn(db, e.spends, asset))
    {
      EntriesSum(e.inputs, TakenBy(assets), asset);
      if i :| 0 <= i < |requests| && requests[i].asset == asset {
        TakenOfOne(assets, requests, Spendable.Candidates(db), stock, i);
        RequestedWithinHeld(db, e, i, assets, requests, stock);
      } else {
        TakenOfNone(assets, requests, Spendable.Candidates(db), stock, asset);
        SumNonNegative(db.colorings, WalletRuns.LiveOn(db, e.spends, asset));
      }
    }
  }
}
