/** What every step of the wallet does to the settled balance, and what a witness invoice adds to the future one. */
module WalletEffects {

  import opened Common
  import opened Assignments
  import opened Selection
  import opened Balances
  import opened WalletRuns
  import WalletBalances

  /** What an assignment is worth by its kind: a piece counts as one, inflation rights are not an amount. */
  function Units(a: Assignment): int
  {
    if a.Fungible? then a.amount else if a.NonFungible? then 1 else 0
  }

  /**
   * A settled amount on an unspent output counts, and so does one that a transaction on its way took: it still
   * belongs to the wallet's past until the transaction is confirmed.
   */
  function SettledShare(db: Db, asset: AssetId): Coloring -> int
  {
    (c: Coloring) =>
      if c.asset == asset
         && (if c.kind.Input? then db.SpentAt(c.txo) && db.StatusOf(c.batch).WaitingConfirmations?
             else !db.SpentAt(c.txo) && db.StatusOf(c.batch).Settled?)
      then Units(c.assignment) else 0
  }

  /** The settled balance, coloring by coloring. */
  lemma SettledByColoring(db: Db, asset: AssetId)
    requires db.Valid()
    ensures GetAssetBalance(db, asset).settled == Sum(db.colorings, SettledShare(db, asset))
  {
    RowsSum(db, SettledAmount(asset));
    forall c | c in db.colorings
      ensures Weigh(db, SettledAmount(asset))(c) == SettledShare(db, asset)(c)
    {
      var a := db.AllocationOf(c);
      assert a.asset == Some(c.asset) && a.assignment == c.assignment;
    }
    SumAgree(db.colorings, Weigh(db, SettledAmount(asset)), SettledShare(db, asset));
  }

  /** Two ways to split what colorings are worth move the settled balance by the difference of their second parts. */
  lemma SettledMoves(db: Db, db': Db, asset: AssetId, gained: Coloring -> int, lost: Coloring -> int)
    requires db.Valid() && db'.Valid() && db'.colorings == db.colorings
    requires forall c | c in db.colorings ::
      SettledShare(db, asset)(c) + gained(c) == SettledShare(db', asset)(c) + lost(c)
    ensures GetAssetBalance(db', asset).settled
         == GetAssetBalance(db, asset).settled + Sum(db.colorings, gained) - Sum(db.colorings, lost)
  {
    SettledByColoring(db, asset);
    SettledByColoring(db', asset);
    var both := (c: Coloring) => SettledShare(db, asset)(c) + gained(c);
    SumAdditive(db.colorings, SettledShare(db, asset), gained, both);
    SumAdditive(db.colorings, SettledShare(db', asset), lost, both);
  }

  function Nothing(): Coloring -> int
  {
    (c: Coloring) => 0
  }

  lemma SettledStays(db: Db, db': Db, asset: AssetId)
    requires db.Valid() && db'.Valid() && db'.colorings == db.colorings
    requires forall c | c in db.colorings :: SettledShare(db, asset)(c) == SettledShare(db', asset)(c)
    ensures GetAssetBalance(db', asset).settled == GetAssetBalance(db, asset).settled
  {
    SettledMoves(db, db', asset, Nothing(), Nothing());
  }

  /** Amounts that a batch placed on outputs still unspent. */
  function PlacedBy(db: Db, b: nat, asset: AssetId): Coloring -> int
  {
    (c: Coloring) =>
      if c.batch == b && !c.kind.Input? && c.asset == asset && !db.SpentAt(c.txo) then Units(c.assignment) else 0
  }

  /** A broadcast settles what the batch declares, and unsettles what its transaction spends. */
  lemma BroadcastSettled(db: Db, b: nat, asset: AssetId)
    requires Inv(db) && WalletAllows(db, Broadcast(b))
    ensures GetAssetBalance(Step(db, Broadcast(b)), asset).settled
         == GetAssetBalance(db, asset).settled + Declared(db, b, asset) - Held(db, b, asset)
  {
    var db' := Step(db, Broadcast(b));
    forall c | c in db.colorings
      ensures SettledShare(db, asset)(c) + OwnInput(b, asset)(c)
           == SettledShare(db', asset)(c) + LiveOn(db, db.batches[b].spends, asset)(c)
    {
      BroadcastShare(db, b, asset, c);
    }
    StepKeepsPlaced(db, Broadcast(b));
    SettledMoves(db, db', asset, OwnInput(b, asset), LiveOn(db, db.batches[b].spends, asset));
  }

  lemma BroadcastShare(db: Db, b: nat, asset: AssetId, c: Coloring)
    requires Inv(db) && WalletAllows(db, Broadcast(b)) && c in db.colorings
    ensures SettledShare(db, asset)(c) + OwnInput(b, asset)(c)
         == SettledShare(Step(db, Broadcast(b)), asset)(c) + LiveOn(db, db.batches[b].spends, asset)(c)
  {
    if c.Incoming() && c.txo in db.batches[b].spends {
      assert Worth(db, c) ==> db.StatusOf(c.batch).Settled?;
    }
  }

  /** A confirmed transfer gives up what the batch declares and keeps what came back on unspent outputs. */
  lemma SettleSettled(db: Db, b: nat, asset: AssetId)
    requires PlacedInv(db) && WalletAllows(db, Settle(b))
    ensures GetAssetBalance(Step(db, Settle(b)), asset).settled
         == GetAssetBalance(db, asset).settled + Sum(db.colorings, PlacedBy(db, b, asset)) - Declared(db, b, asset)
  {
    StepKeepsPlaced(db, Settle(b));
    SettledMoves(db, Step(db, Settle(b)), asset, PlacedBy(db, b, asset), OwnInput(b, asset));
  }

  /** A confirmed receive adds what was received, where it is still unspent. */
  lemma ReceiveSettled(db: Db, b: nat, asset: AssetId)
    requires PlacedInv(db) && WalletAllows(db, Advance(b, Settled))
    ensures GetAssetBalance(Step(db, Advance(b, Settled)), asset).settled
         == GetAssetBalance(db, asset).settled + Sum(db.colorings, PlacedBy(db, b, asset))
  {
    StepKeepsPlaced(db, Advance(b, Settled));
    SettledMoves(db, Step(db, Advance(b, Settled)), asset, PlacedBy(db, b, asset), Nothing());
    SumZero(db.colorings, Nothing());
  }

  lemma {:induction false} TaggedShare(db: Db, entries: seq<Entry>, b: nat, asset: AssetId)
    requires forall i | i in entries :: !i.kind.Input? && !db.SpentAt(i.txo)
    requires db.StatusOf(b).Settled?
    ensures Sum(Tag(entries, b), SettledShare(db, asset)) == Sum(entries, AmountOf(asset))
  {
    if entries != [] {
      var n := |entries| - 1;
      TaggedShare(db, entries[..n], b, asset);
      assert Tag(entries, b)[..n] == Tag(entries[..n], b);
    }
  }

  /** New colorings count as far as they are worth something; the old ones as before. */
  lemma AddedSettled(db: Db, db': Db, added: seq<Coloring>, asset: AssetId)
    requires db.Valid() && db'.Valid() && db'.colorings == db.colorings + added
    requires forall c | c in db.colorings :: SettledShare(db, asset)(c) == SettledShare(db', asset)(c)
    ensures GetAssetBalance(db', asset).settled
         == GetAssetBalance(db, asset).settled + Sum(added, SettledShare(db', asset))
  {
    SettledByColoring(db, asset);
    SettledByColoring(db', asset);
    SumAgree(db.colorings, SettledShare(db, asset), SettledShare(db', asset));
    SumConcat(db.colorings, added, SettledShare(db', asset));
  }

  /** An issuance settles the issued amounts at once. */
  lemma IssueSettled(db: Db, issues: seq<Entry>, asset: AssetId)
    requires PlacedInv(db) && WalletAllows(db, IssueAsset(issues))
    ensures GetAssetBalance(Step(db, IssueAsset(issues)), asset).settled
         == GetAssetBalance(db, asset).settled + Sum(issues, AmountOf(asset))
  {
    var db' := Step(db, IssueAsset(issues));
    StepKeepsPlaced(db, IssueAsset(issues));
    TaggedShare(db', issues, |db.batches|, asset);
    AddedSettled(db, db', Tag(issues, |db.batches|), asset);
  }

  /** No other step moves the settled balance. */
  predicate SettlesNothing(e: Event)
  {
    match e
    case Discover(_) => true
    case Begin(_, _, _, _) => true
    case End(_) => true
    case Fail(_) => true
    case Invoice(_) => true
    case Validate(_, _, _) => true
    case Advance(_, s) => !s.Settled?
    case _ => false
  }

  lemma OthersKeepSettled(db: Db, e: Event, asset: AssetId)
    requires PlacedInv(db) && WalletAllows(db, e) && SettlesNothing(e)
    ensures GetAssetBalance(Step(db, e), asset).settled == GetAssetBalance(db, asset).settled
  {
    StepKeepsPlaced(db, e);
    if e.Begin? {
      BeginKeepsSettled(db, e, asset);
    } else if e.Validate? {
      ValidateKeepsSettled(db, e.b, e.receives, e.status, asset);
    } else if e.Advance? {
      MoveKeepsSettled(db, e.b, e.status, asset);
    } else if e.End? {
      MoveKeepsSettled(db, e.b, WaitingCounterparty, asset);
    } else if e.Fail? {
      MoveKeepsSettled(db, e.b, Failed, asset);
    } else {
      SettledStays(db, Step(db, e), asset);
    }
  }

  lemma MoveKeepsSettled(db: Db, b: nat, s: TransferStatus, asset: AssetId)
    requires PlacedInv(db) && Moves(db, b, s) && !s.Settled? && WithStatus(db, b, s).Valid()
    ensures GetAssetBalance(WithStatus(db, b, s), asset).settled == GetAssetBalance(db, asset).settled
  {
    SettledStays(db, WithStatus(db, b, s), asset);
  }

  lemma BeginKeepsSettled(db: Db, e: Event, asset: AssetId)
    requires PlacedInv(db) && e.Begin? && WalletAllows(db, e) && Step(db, e).Valid()
    ensures GetAssetBalance(Step(db, e), asset).settled == GetAssetBalance(db, asset).settled
  {
    var db', added := Step(db, e), BeginColorings(db, e.inputs, e.changes);
    forall c | c in added
      ensures SettledShare(db', asset)(c) == 0
    {
      BeginMember(db, e, c);
    }
    SumZero(added, SettledShare(db', asset));
    AddedSettled(db, db', added, asset);
  }

  lemma ValidateKeepsSettled(db: Db, b: nat, receives: seq<Entry>, s: TransferStatus, asset: AssetId)
    requires PlacedInv(db) && WalletAllows(db, Validate(b, receives, s)) && Step(db, Validate(b, receives, s)).Valid()
    ensures GetAssetBalance(Step(db, Validate(b, receives, s)), asset).settled == GetAssetBalance(db, asset).settled
  {
    var db', added := Step(db, Validate(b, receives, s)), Tag(receives, b);
    forall c | c in added
      ensures SettledShare(db', asset)(c) == 0
    {
      TagMember(receives, b, c);
    }
    SumZero(added, SettledShare(db', asset));
    AddedSettled(db, db', added, asset);
  }

  /**
   * From the end of its preparation to its confirmation a transfer takes from the settled balance all that the
   * outputs it spends hold, and adds what it placed on outputs of the wallet that are unspent by then.
   */
  lemma TransferSettled(db: Db, b: nat, asset: AssetId)
    requires Inv(db) && WalletAllows(db, End(b))
    ensures var ended := Step(db, End(b));
      && WalletAllows(ended, Broadcast(b))
      && var sent := Step(ended, Broadcast(b));
         && WalletAllows(sent, Settle(b))
         && GetAssetBalance(Step(sent, Settle(b)), asset).settled
              == GetAssetBalance(db, asset).settled - Held(db, b, asset)
                 + Sum(sent.colorings, PlacedBy(sent, b, asset))
  {
    var ended := Step(db, End(b));
    var sent := Step(ended, Broadcast(b));
    StepKeepsInv(db, End(b));
    StepKeepsInv(ended, Broadcast(b));
    OthersKeepSettled(db, End(b), asset);
    StepKeepsAccount(db, End(b), b, asset);
    BroadcastSettled(ended, b, asset);
    SettleSettled(sent, b, asset);
  }

  // ---------------------------------------------------------------- a whole transfer, and the future balance

  /** What a begun batch has placed by the time it is confirmed: all its change. */
  lemma {:induction false} PlacedChanges(db: Db, entries: seq<Entry>, b: nat, asset: AssetId)
    requires forall i | i in entries :: !i.kind.Input? && !db.SpentAt(i.txo)
    ensures Sum(Tag(entries, b), PlacedBy(db, b, asset)) == Sum(entries, AmountOf(asset))
  {
    if entries != [] {
      var n := |entries| - 1;
      PlacedChanges(db, entries[..n], b, asset);
      assert Tag(entries, b)[..n] == Tag(entries[..n], b);
    }
  }

  lemma ChangesUnspent(db: Db, e: Event)
    requires db.Valid() && e.Begin? && WalletAllows(db, e)
    ensures forall c | c in e.changes :: !c.kind.Input? && !Step(db, e).SpentAt(c.txo) && c.txo !in e.spends
    ensures forall c | c in e.changes :: c.txo < |db.txos| + |e.newTxos|
  {
    forall c | c in e.changes
      ensures !Step(db, e).SpentAt(c.txo) && c.txo !in e.spends
    {
      if c.txo >= |db.txos| {
        assert Step(db, e).txos[c.txo] == e.newTxos[c.txo - |db.txos|];
      }
    }
  }

  lemma ChangesRemain(db: Db, e: Event, sent: Db, asset: AssetId)
    requires db.Valid() && e.Begin? && WalletAllows(db, e)
    requires sent.colorings == Step(db, e).colorings
    requires forall t | 0 <= t < |db.txos| + |e.newTxos| && t !in e.spends ::
      sent.SpentAt(t) == Step(db, e).SpentAt(t)
    ensures Sum(sent.colorings, PlacedBy(sent, |db.batches|, asset)) == Sum(e.changes, AmountOf(asset))
  {
    var b := |db.batches|;
    ChangesUnspent(db, e);
    PlacedChanges(sent, e.changes, b, asset);
    forall c | c in Tag(e.inputs, b)
      ensures PlacedBy(sent, b, asset)(c) == 0
    {
      TagMember(e.inputs, b, c);
    }
    SumZero(Tag(e.inputs, b), PlacedBy(sent, b, asset));
    SumZero(db.colorings, PlacedBy(sent, b, asset));
    SumConcat(db.colorings, Tag(e.inputs, b) + Tag(e.changes, b), PlacedBy(sent, b, asset));
    SumConcat(Tag(e.inputs, b), Tag(e.changes, b), PlacedBy(sent, b, asset));
  }

  /** A transfer, begun to settled: its inputs' whole worth leaves the settled balance, its change is added. */
  lemma WholeTransferSettled(db: Db, e: Event, asset: AssetId)
    requires Inv(db) && e.Begin? && WalletAllows(db, e) && Unshared(db, e)
    ensures var b, begun := |db.batches|, Step(db, e);
      && WalletAllows(begun, End(b))
      && var sent := Step(Step(begun, End(b)), Broadcast(b));
         GetAssetBalance(Step(sent, Settle(b)), asset).settled
           == GetAssetBalance(db, asset).settled - Sum(db.colorings, LiveOn(db, e.spends, asset))
              + Sum(e.changes, AmountOf(asset))
  {
    var b, begun := |db.batches|, Step(db, e);
    StepKeepsInv(db, e);
    OthersKeepSettled(db, e, asset);
    BeginAccount(db, e, asset);
    TransferSettled(begun, b, asset);
    SentKeepsOthers(begun, b);
    ChangesRemain(db, e, Step(Step(begun, End(b)), Broadcast(b)), asset);
  }

  lemma SentKeepsOthers(db: Db, b: nat)
    requires WalletAllows(db, End(b))
    ensures var ended := Step(db, End(b));
      && WalletAllows(ended, Broadcast(b))
      && Step(ended, Broadcast(b)).colorings == db.colorings
      && forall t | 0 <= t < |db.txos| && t !in db.batches[b].spends ::
           Step(ended, Broadcast(b)).SpentAt(t) == db.SpentAt(t)
  {
  }

  /** New colorings move the future balance by their weights, if nothing else is weighed differently. */
  lemma AddedFuture(db: Db, db': Db, added: seq<Coloring>, asset: AssetId)
    requires db.Valid() && db'.Valid() && db'.colorings == db.colorings + added
    requires forall c | c in db.colorings :: FutureWeight(db, asset)(c) == FutureWeight(db', asset)(c)
    requires Sum(db.batches, WitnessPending(asset)) == Sum(db'.batches, WitnessPending(asset))
    ensures GetAssetBalance(db', asset).future
         == GetAssetBalance(db, asset).future + Sum(added, FutureWeight(db', asset))
  {
    FutureByColoring(db, asset);
    FutureByColoring(db', asset);
    SumAgree(db.colorings, FutureWeight(db, asset), FutureWeight(db', asset));
    SumConcat(db.colorings, added, FutureWeight(db', asset));
  }

  /** Rows placed by a batch that goes on count with their amounts, rows taken against them. */
  lemma {:induction false} TaggedFuture(db: Db, entries: seq<Entry>, b: nat, asset: AssetId, taken: bool)
    requires forall i | i in entries :: (i.kind.Input? <==> taken) && (!taken ==> !db.SpentAt(i.txo))
    requires db.StatusOf(b).Pending() && (taken ==> db.StatusOf(b).Initiated?)
    ensures Sum(Tag(entries, b), FutureWeight(db, asset))
         == if taken then 0 - Sum(entries, AmountOf(asset)) else Sum(entries, AmountOf(asset))
  {
    if entries != [] {
      var n := |entries| - 1;
      TaggedFuture(db, entries[..n], b, asset, taken);
      assert Tag(entries, b)[..n] == Tag(entries[..n], b);
    }
  }

  lemma BegunColorings(db: Db, e: Event, asset: AssetId)
    requires db.Valid() && e.Begin? && WalletAllows(db, e)
    ensures Sum(BeginColorings(db, e.inputs, e.changes), FutureWeight(Step(db, e), asset))
         == Sum(e.changes, AmountOf(asset)) - Sum(e.inputs, AmountOf(asset))
  {
    var b, db' := |db.batches|, Step(db, e);
    assert db'.StatusOf(b).Initiated?;
    ChangesUnspent(db, e);
    TaggedFuture(db', e.inputs, b, asset, true);
    TaggedFuture(db', e.changes, b, asset, false);
    SumConcat(Tag(e.inputs, b), Tag(e.changes, b), FutureWeight(db', asset));
  }

  /** Rows in the database keep their place while others are added behind them. */
  lemma OldWeights(db: Db, db': Db, asset: AssetId)
    requires db.Valid() && db.txos <= db'.txos && db.batches <= db'.batches
    ensures forall c | c in db.colorings :: FutureWeight(db, asset)(c) == FutureWeight(db', asset)(c)
  {
  }

  /** Preparing a transfer takes what it declares off the future balance and adds its change, at once. */
  lemma BeginMovesFuture(db: Db, e: Event, asset: AssetId)
    requires PlacedInv(db) && e.Begin? && WalletAllows(db, e)
    ensures GetAssetBalance(Step(db, e), asset).future
         == GetAssetBalance(db, asset).future - Sum(e.inputs, AmountOf(asset)) + Sum(e.changes, AmountOf(asset))
  {
    var db' := Step(db, e);
    StepKeepsPlaced(db, e);
    SumAppend(db.batches, Batch(Initiated, false, e.spends, Indices(|db.txos|, |e.newTxos|), None, None),
              WitnessPending(asset));
    OldWeights(db, db', asset);
    BegunColorings(db, e, asset);
    AddedFuture(db, db', BeginColorings(db, e.inputs, e.changes), asset);
  }

  lemma MovedWeights(db: Db, b: nat, s: TransferStatus, db': Db, asset: AssetId)
    requires Shaped(db) && b < |db.batches| && db.batches[b].incoming && db.batches[b].requested.None?
    requires db.batches[b].status.Pending() && s.Pending()
    requires db'.txos == db.txos && db'.batches == WithStatus(db, b, s).batches
    ensures forall c | c in db.colorings :: FutureWeight(db, asset)(c) == FutureWeight(db', asset)(c)
    ensures Sum(db.batches, WitnessPending(asset)) == Sum(db'.batches, WitnessPending(asset))
  {
    WalletBalances.WitnessUnmoved(db, db', asset);
    forall c | c in db.colorings
      ensures FutureWeight(db, asset)(c) == FutureWeight(db', asset)(c)
    {
      assert c.kind.Input? ==> c.batch != b;
    }
  }

  /** A validated consignment adds what it allocates to a blind invoice's output, if that is still unspent. */
  lemma ValidateMovesFuture(db: Db, b: nat, receives: seq<Entry>, s: TransferStatus, asset: AssetId)
    requires PlacedInv(db) && WalletAllows(db, Validate(b, receives, s)) && db.batches[b].requested.None?
    requires !db.SpentAt(db.batches[b].blinded.value)
    ensures GetAssetBalance(Step(db, Validate(b, receives, s)), asset).future
         == GetAssetBalance(db, asset).future + Sum(receives, AmountOf(asset))
  {
    var db' := Step(db, Validate(b, receives, s));
    StepKeepsPlaced(db, Validate(b, receives, s));
    MovedWeights(db, b, s, db', asset);
    TaggedFuture(db', receives, b, asset, false);
    AddedFuture(db, db', Tag(receives, b), asset);
  }

  /** A batch that places nothing and holds no output changes a balance only as a witness receive on its way. */
  lemma WitnessCounts(db: Db, batch: Batch, asset: AssetId)
    requires db.Valid() && batch.spends == {} && batch.creates == {} && batch.blinded.None?
    ensures var before, after := GetAssetBalance(db, asset),
                                 GetAssetBalance(db.(batches := db.batches + [batch]), asset);
      && after.settled == before.settled && after.spendable == before.spendable
      && after.future == before.future
           + if batch.incoming && batch.status.WaitingConfirmations? && batch.requested.Some?
                && batch.requested.value.0 == asset then batch.requested.value.1 else 0
  {
    var db' := db.(batches := db.batches + [batch]);
    RowsUnmoved(db, batch);
    SumAppend(db.batches, batch, WitnessPending(asset));
  }

  lemma RowsUnmoved(db: Db, batch: Batch)
    requires db.Valid() && batch.blinded.None?
    ensures db.(batches := db.batches + [batch]).Rows() == db.Rows()
  {
    var db' := db.(batches := db.batches + [batch]);
    forall t | 0 <= t < |db.txos|
      ensures db'.Row(t) == db.Row(t)
    {
      forall c | c in Filter(db.colorings, OnTxo(t))
        ensures c in db.colorings
      {
        FilterMember(db.colorings, OnTxo(t), c);
      }
      WalletBalances.MapAgree(db, db', Filter(db.colorings, OnTxo(t)));
      assert db'.batches[..|db.batches|] == db.batches;
      assert Filter(db'.batches, WaitsOn(t)) == Filter(db.batches, WaitsOn(t)) + [];
    }
  }
}
