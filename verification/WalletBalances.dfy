/** What runs of transfers do to the balances. */
module WalletBalances {

  import opened Common
  import opened Assignments
  import opened Selection
  import opened Balances
  import opened WalletRuns

  // ---------------------------------------------------------------- the future balance never goes negative

  /** Amounts taken by the live batches numbered below k. */
  function TakenBelow(db: Db, asset: AssetId, k: nat): Coloring -> int
    requires k <= |db.batches|
  {
    (c: Coloring) =>
      if c.kind.Input? && c.asset == asset && c.batch < k && db.batches[c.batch].Live()
      then c.assignment.MainAmount() else 0
  }

  predicate ClaimedBelow(db: Db, k: nat, t: nat)
    requires k <= |db.batches|
  {
    exists b | 0 <= b < k :: db.batches[b].Live() && t in db.batches[b].spends
  }

  /** Live incoming amounts on outputs that those batches spend. */
  ghost function HeldBelow(db: Db, asset: AssetId, k: nat): Coloring -> int
    requires k <= |db.batches|
  {
    (c: Coloring) =>
      if Worth(db, c) && c.asset == asset && ClaimedBelow(db, k, c.txo) then c.assignment.MainAmount() else 0
  }

  /** Batch by batch, what live batches take is within what their inputs hold, counted once. */
  lemma {:induction false} TakenWithinHeld(db: Db, asset: AssetId, k: nat)
    requires Inv(db) && k <= |db.batches|
    ensures Sum(db.colorings, TakenBelow(db, asset, k)) <= Sum(db.colorings, HeldBelow(db, asset, k))
  {
    if k == 0 {
      SumZero(db.colorings, TakenBelow(db, asset, 0));
      SumZero(db.colorings, HeldBelow(db, asset, 0));
    } else {
      var b := k - 1;
      TakenWithinHeld(db, asset, b);
      if db.batches[b].Live() {
        SumAdditive(db.colorings, TakenBelow(db, asset, b), OwnInput(b, asset), TakenBelow(db, asset, k));
        assert Declared(db, b, asset) <= Held(db, b, asset);
        OneMoreClaim(db, asset, b);
      } else {
        SumAgree(db.colorings, TakenBelow(db, asset, b), TakenBelow(db, asset, k));
        SumAgree(db.colorings, HeldBelow(db, asset, b), HeldBelow(db, asset, k));
      }
    }
  }

  lemma OneMoreClaim(db: Db, asset: AssetId, b: nat)
    requires Inv(db) && b < |db.batches| && db.batches[b].Live()
    ensures Sum(db.colorings, HeldBelow(db, asset, b + 1))
         == Sum(db.colorings, HeldBelow(db, asset, b)) + Sum(db.colorings, LiveOn(db, db.batches[b].spends, asset))
  {
    forall c | c in db.colorings
      ensures HeldBelow(db, asset, b + 1)(c)
           == HeldBelow(db, asset, b)(c) + LiveOn(db, db.batches[b].spends, asset)(c)
    {
      assert ClaimedBelow(db, b + 1, c.txo) <==> ClaimedBelow(db, b, c.txo) || c.txo in db.batches[b].spends;
    }
    SumAdditive(db.colorings, HeldBelow(db, asset, b), LiveOn(db, db.batches[b].spends, asset),
                HeldBelow(db, asset, b + 1));
  }

  function Live(db: Db, asset: AssetId): Coloring -> int
  {
    (c: Coloring) =>
      if c.Incoming() && c.asset == asset && !db.SpentAt(c.txo) && !db.StatusOf(c.batch).Failed?
      then c.assignment.MainAmount() else 0
  }

  /** Pending outgoing amounts never exceed what is available: the conversion of the future balance succeeds. */
  lemma FutureNonNegative(db: Db, asset: AssetId)
    requires Inv(db)
    ensures GetAssetBalance(db, asset).future >= 0
  {
    var n := |db.batches|;
    FutureByColoring(db, asset);
    SumAdditive(db.colorings, FutureWeight(db, asset), TakenBelow(db, asset, n), Live(db, asset));
    TakenWithinHeld(db, asset, n);
    SumMonotone(db.colorings, HeldBelow(db, asset, n), Live(db, asset));
    SumNonNegative(db.batches, WitnessPending(asset));
  }

  /** In a run that shares no output, the balance's two conversions never fail, even where a batch leaves an asset behind. */
  lemma BalancesNeverPanic(db: Db, events: seq<Event>, asset: AssetId)
    requires Inv(db) && Runs(db, events) && UnsharedRun(db, events)
    ensures GetAssetBalance(After(db, events), asset).future >= 0
    ensures GetAssetBalance(After(db, events), asset).spendable >= 0
  {
    RunKeepsInv(db, events);
    FutureNonNegative(After(db, events), asset);
    SpendableWithinSettled(After(db, events), asset);
  }

  // ---------------------------------------------------------------- what a transfer does to the balance

  lemma WitnessUnmoved(db: Db, db': Db, asset: AssetId)
    requires |db.batches| == |db'.batches|
    requires forall b | 0 <= b < |db.batches| ::
      WitnessPending(asset)(db'.batches[b]) == WitnessPending(asset)(db.batches[b])
    ensures Sum(db'.batches, WitnessPending(asset)) == Sum(db.batches, WitnessPending(asset))
  {
    SumPointwise(db.batches, db'.batches, WitnessPending(asset));
  }

  lemma SameWeightsSameFuture(db: Db, db': Db, asset: AssetId)
    requires db.Valid() && db'.Valid() && db'.colorings == db.colorings && |db.batches| == |db'.batches|
    requires forall c | c in db.colorings :: WeightOf(db', asset, c) == WeightOf(db, asset, c)
    requires forall b | 0 <= b < |db.batches| ::
      WitnessPending(asset)(db'.batches[b]) == WitnessPending(asset)(db.batches[b])
    ensures GetAssetBalance(db', asset).future == GetAssetBalance(db, asset).future
  {
    FutureByColoring(db, asset);
    FutureByColoring(db', asset);
    SumAgree(db.colorings, FutureWeight(db, asset), FutureWeight(db', asset));
    WitnessUnmoved(db, db', asset);
  }

  /** Finalizing a transfer leaves the future balance as it was when it was prepared. */
  lemma EndKeepsFuture(db: Db, b: nat, asset: AssetId)
    requires db.Valid() && WalletAllows(db, End(b))
    ensures GetAssetBalance(Step(db, End(b)), asset).future == GetAssetBalance(db, asset).future
  {
    SameWeightsSameFuture(db, Step(db, End(b)), asset);
  }

  /** Broadcasting adds what the batch declares as inputs and drops what its transaction spends. */
  lemma BroadcastMovesFuture(db: Db, b: nat, asset: AssetId)
    requires Shaped(db) && SpentInputs(db) && WalletAllows(db, Broadcast(b))
    ensures GetAssetBalance(Step(db, Broadcast(b)), asset).future
         == GetAssetBalance(db, asset).future + Declared(db, b, asset) - Held(db, b, asset)
  {
    var db' := Step(db, Broadcast(b));
    var spends := db.batches[b].spends;
    FutureByColoring(db, asset);
    FutureByColoring(db', asset);
    var before := (c: Coloring) => WeightOf(db, asset, c) + OwnInput(b, asset)(c);
    SumAdditive(db.colorings, FutureWeight(db, asset), OwnInput(b, asset), before);
    forall c | c in db.colorings
      ensures before(c) == WeightOf(db', asset, c) + LiveOn(db, spends, asset)(c)
    {
      BroadcastWeight(db, b, asset, c);
    }
    SumAdditive(db.colorings, FutureWeight(db', asset), LiveOn(db, spends, asset), before);
    WitnessUnmoved(db, db', asset);
  }

  /**
   * Broadcasting keeps the future balance of an asset exactly when the batch declares, as inputs, all
   * the live incoming amount that its transaction spends.
   */
  lemma BroadcastKeepsFutureIff(db: Db, b: nat, asset: AssetId)
    requires Shaped(db) && SpentInputs(db) && WalletAllows(db, Broadcast(b))
    ensures GetAssetBalance(Step(db, Broadcast(b)), asset).future == GetAssetBalance(db, asset).future
      <==> Declared(db, b, asset) == Held(db, b, asset)
  {
    BroadcastMovesFuture(db, b, asset);
  }

  /**
   * Reading the balance after a broadcast panics exactly when the transaction spends more of the asset
   * than the batch declares and the future balance holds together.
   */
  lemma BroadcastPanicsIff(db: Db, b: nat, asset: AssetId)
    requires Shaped(db) && SpentInputs(db) && WalletAllows(db, Broadcast(b))
    ensures GetAssetBalance(Step(db, Broadcast(b)), asset).future < 0
      <==> GetAssetBalance(db, asset).future + Declared(db, b, asset) < Held(db, b, asset)
  {
    BroadcastMovesFuture(db, b, asset);
  }

  lemma BroadcastWeight(db: Db, b: nat, asset: AssetId, c: Coloring)
    requires Shaped(db) && SpentInputs(db) && WalletAllows(db, Broadcast(b)) && c in db.colorings
    ensures WeightOf(db, asset, c) + OwnInput(b, asset)(c)
         == WeightOf(Step(db, Broadcast(b)), asset, c) + LiveOn(db, db.batches[b].spends, asset)(c)
  {
  }

  lemma SettleKeepsFuture(db: Db, b: nat, asset: AssetId)
    requires Shaped(db) && SpentInputs(db) && WalletAllows(db, Settle(b))
    ensures GetAssetBalance(Step(db, Settle(b)), asset).future == GetAssetBalance(db, asset).future
  {
    SameWeightsSameFuture(db, Step(db, Settle(b)), asset);
  }

  /** A transfer's step moves the future balance only where a broadcast batch declares less than it spends. */
  lemma TransferKeepsFuture(db: Db, e: Event, asset: AssetId)
    requires Inv(db) && WalletAllows(db, e) && (e.End? || e.Broadcast? || e.Settle?)
    ensures GetAssetBalance(Step(db, e), asset).future == GetAssetBalance(db, asset).future
      <==> (e.Broadcast? ==> Declared(db, e.b, asset) == Held(db, e.b, asset))
  {
    match e
    case End(b) => EndKeepsFuture(db, b, asset);
    case Broadcast(b) => BroadcastKeepsFutureIff(db, b, asset);
    case Settle(b) => SettleKeepsFuture(db, b, asset);
  }

  /**
   * A batch that declares all that the outputs it spends hold of an asset: whatever happens to the wallet
   * in between, its broadcast leaves the asset's future balance as it is.
   */
  lemma FullBroadcastKeepsFuture(db: Db, events: seq<Event>, b: nat, asset: AssetId)
    requires Inv(db) && Runs(db, events) && UnsharedRun(db, events)
    requires b < |db.batches| && Declared(db, b, asset) == Held(db, b, asset)
    ensures var last := After(db, events);
      WalletAllows(last, Broadcast(b)) ==>
        GetAssetBalance(Step(last, Broadcast(b)), asset).future == GetAssetBalance(last, asset).future
  {
    RunKeepsInv(db, events);
    RunKeepsAccount(db, events, b, asset);
    if WalletAllows(After(db, events), Broadcast(b)) {
      BroadcastKeepsFutureIff(After(db, events), b, asset);
    }
  }

  // ---------------------------------------------------------------- failing

  function NotOf(b: nat): Coloring -> bool
  {
    (c: Coloring) => c.batch != b
  }

  /** The database as if the batch had never placed or taken anything. */
  function WithoutBatch(db: Db, b: nat): Db
  {
    db.(colorings := Filter(db.colorings, NotOf(b)))
  }

  /** An amount that failed allocations do not have. */
  ghost predicate IgnoresFailed(f: LocalRgbAllocation -> int)
  {
    forall a: LocalRgbAllocation :: a.status.Failed? ==> f(a) == 0
  }

  lemma RowWithoutBatch(db: Db, b: nat, t: nat, f: LocalRgbAllocation -> int)
    requires db.StatusOf(b).Failed? && IgnoresFailed(f)
    ensures Sum(WithoutBatch(db, b).Allocations(t), f) == Sum(db.Allocations(t), f)
  {
    var db' := WithoutBatch(db, b);
    var here, here' := Gate(OnTxo(t), Weigh(db, f)), Gate(OnTxo(t), Weigh(db', f));
    HostedSum(db, t, f);
    HostedSum(db', t, f);
    forall c: Coloring
      ensures here'(c) == here(c) && (c.batch == b ==> here(c) == 0)
    {
      assert db'.AllocationOf(c) == db.AllocationOf(c);
      assert c.batch == b ==> db.AllocationOf(c).status.Failed?;
    }
    SumAgree(db'.colorings, here, here');
    SumFilter(db.colorings, NotOf(b), here, here);
  }

  lemma LiveMembersWithoutBatch(db: Db, b: nat, t: nat, a: LocalRgbAllocation)
    requires db.StatusOf(b).Failed? && !a.status.Failed?
    ensures a in WithoutBatch(db, b).Allocations(t) <==> a in db.Allocations(t)
  {
    var db' := WithoutBatch(db, b);
    AllocationMember(db, t, a);
    AllocationMember(db', t, a);
    forall c: Coloring
      ensures c in db'.colorings <==> c in db.colorings && c.batch != b
    {
      FilterMember(db.colorings, NotOf(b), c);
    }
    assert forall c: Coloring :: db'.AllocationOf(c) == db.AllocationOf(c);
  }

  lemma UnspendableWithoutBatch(db: Db, b: nat, t: nat)
    requires db.StatusOf(b).Failed? && t < |db.txos|
    ensures IsUnspendable(WithoutBatch(db, b).Row(t)) <==> IsUnspendable(db.Row(t))
  {
    forall a: LocalRgbAllocation | !a.status.Failed?
      ensures a in WithoutBatch(db, b).Allocations(t) <==> a in db.Allocations(t)
    {
      LiveMembersWithoutBatch(db, b, t, a);
    }
  }

  /**
   * A failed batch is as good as absent, whatever happened since it began: all balances are those of a
   * database without any of its rows.
   */
  lemma FailForgets(db: Db, b: nat, asset: AssetId)
    requires db.StatusOf(b).Failed?
    ensures GetAssetBalance(db, asset) == GetAssetBalance(WithoutBatch(db, b), asset)
  {
    var db' := WithoutBatch(db, b);
    forall t | 0 <= t < |db.txos|
      ensures OnRow(SettledAmount(asset))(db'.Row(t)) == OnRow(SettledAmount(asset))(db.Row(t))
      ensures OnRow(PendingIn(asset))(db'.Row(t)) == OnRow(PendingIn(asset))(db.Row(t))
      ensures OnRow(PendingOut(asset))(db'.Row(t)) == OnRow(PendingOut(asset))(db.Row(t))
      ensures UnspendableOn(asset)(db'.Row(t)) == UnspendableOn(asset)(db.Row(t))
    {
      RowWithoutBatch(db, b, t, SettledAmount(asset));
      RowWithoutBatch(db, b, t, PendingIn(asset));
      RowWithoutBatch(db, b, t, PendingOut(asset));
      UnspendableWithoutBatch(db, b, t);
    }
    SumPointwise(db.Rows(), db'.Rows(), OnRow(SettledAmount(asset)));
    SumPointwise(db.Rows(), db'.Rows(), OnRow(PendingIn(asset)));
    SumPointwise(db.Rows(), db'.Rows(), OnRow(PendingOut(asset)));
    SumPointwise(db.Rows(), db'.Rows(), UnspendableOn(asset));
  }

  lemma {:induction false} MapAgree(db: Db, db': Db, cs: seq<Coloring>)
    requires forall c | c in cs :: db'.AllocationOf(c) == db.AllocationOf(c)
    ensures db'.MapColorings(cs) == db.MapColorings(cs)
  {
    if cs != [] {
      MapAgree(db, db', cs[..|cs| - 1]);
    }
  }

  /** db' is db with outputs that host nothing, and one outgoing batch, added. */
  ghost predicate PadsOut(db: Db, db': Db)
  {
    && db.Valid()
    && db.txos <= db'.txos && db'.colorings == db.colorings
    && exists b: Batch :: !b.incoming && db'.batches == db.batches + [b]
  }

  lemma PaddedRow(db: Db, db': Db, t: nat)
    requires PadsOut(db, db') && t < |db'.txos|
    ensures t < |db.txos| ==> db'.Row(t) == db.Row(t)
    ensures t >= |db.txos| ==> db'.Allocations(t) == []
  {
    var here := Filter(db.colorings, OnTxo(t));
    forall c | c in here
      ensures t < |db.txos| && db'.AllocationOf(c) == db.AllocationOf(c)
    {
      FilterMember(db.colorings, OnTxo(t), c);
    }
    MapAgree(db, db', here);
    if t < |db.txos| {
      var b: Batch :| !b.incoming && db'.batches == db.batches + [b];
      assert (db.batches + [b])[..|db.batches|] == db.batches;
    }
  }

  lemma PaddedSum(db: Db, db': Db, f: LocalUnspent -> int)
    requires PadsOut(db, db')
    requires forall u: LocalUnspent :: u.allocations == [] ==> f(u) == 0
    ensures Sum(db'.Rows(), f) == Sum(db.Rows(), f)
  {
    var added := db'.Rows()[|db.txos|..];
    forall t | 0 <= t < |db'.txos|
      ensures t < |db.txos| ==> db'.Row(t) == db.Row(t)
      ensures t >= |db.txos| ==> f(db'.Row(t)) == 0
    {
      PaddedRow(db, db', t);
    }
    assert db'.Rows() == db.Rows() + added;
    SumConcat(db.Rows(), added, f);
    SumZero(added, f);
  }

  lemma PaddedHosted(db: Db, db': Db, f: LocalRgbAllocation -> int)
    requires PadsOut(db, db')
    ensures Sum(db'.Rows(), OnRow(f)) == Sum(db.Rows(), OnRow(f))
  {
    PaddedSum(db, db', OnRow(f));
  }

  lemma PaddedUnspendable(db: Db, db': Db, asset: AssetId)
    requires PadsOut(db, db')
    ensures Sum(db'.Rows(), UnspendableOn(asset)) == Sum(db.Rows(), UnspendableOn(asset))
  {
    PaddedSum(db, db', UnspendableOn(asset));
  }

  lemma PaddedWitness(db: Db, db': Db, asset: AssetId)
    requires PadsOut(db, db')
    ensures Sum(db'.batches, WitnessPending(asset)) == Sum(db.batches, WitnessPending(asset))
  {
    var b: Batch :| !b.incoming && db'.batches == db.batches + [b];
    SumAppend(db.batches, b, WitnessPending(asset));
  }

  lemma PaddingKeepsBalance(db: Db, db': Db, asset: AssetId)
    requires PadsOut(db, db')
    ensures GetAssetBalance(db', asset) == GetAssetBalance(db, asset)
  {
    PaddedHosted(db, db', SettledAmount(asset));
    PaddedHosted(db, db', PendingIn(asset));
    PaddedHosted(db, db', PendingOut(asset));
    PaddedUnspendable(db, db', asset);
    PaddedWitness(db, db', asset);
  }

  /** Failing a transfer right after preparing it gives back every balance held before. */
  lemma FailUndoesBegin(db: Db, e: Event, asset: AssetId)
    requires db.Valid() && e.Begin? && WalletAllows(db, e)
    ensures var begun := Step(db, e);
      WalletAllows(begun, Fail(|db.batches|)) &&
      GetAssetBalance(Step(begun, Fail(|db.batches|)), asset) == GetAssetBalance(db, asset)
  {
    var k := |db.batches|;
    var failed := Step(Step(db, e), Fail(k));
    FailForgets(failed, k, asset);
    FailedPadsOut(db, e);
    PaddingKeepsBalance(db, WithoutBatch(failed, k), asset);
  }

  /** Without its rows, a failed batch leaves only empty outputs and its own entry. */
  lemma FailedPadsOut(db: Db, e: Event)
    requires db.Valid() && e.Begin? && WalletAllows(db, e)
    ensures PadsOut(db, WithoutBatch(Step(Step(db, e), Fail(|db.batches|)), |db.batches|))
  {
    var k := |db.batches|;
    var failed := Step(Step(db, e), Fail(k));
    OldColoringsRemain(db, e);
    assert failed.batches == db.batches + [failed.batches[k]];
  }

  lemma OldColoringsRemain(db: Db, e: Event)
    requires db.Valid() && e.Begin? && WalletAllows(db, e)
    ensures Filter(Step(db, e).colorings, NotOf(|db.batches|)) == db.colorings
  {
    var k := |db.batches|;
    var added := BeginColorings(db, e.inputs, e.changes);
    FilterConcat(db.colorings, added, NotOf(k));
    FilterAll(db.colorings, NotOf(k));
    forall c | c in added
      ensures c.batch == k
    {
      BeginMember(db, e, c);
    }
    FilterNone(added, NotOf(k));
  }

  // ---------------------------------------------------------------- without the sharing condition

  lemma ReadyInput(db: Db, t: nat)
    requires t < |db.txos| && db.txos[t].exists_ && !db.txos[t].pendingWitness && db.PendingBlinded(t) == 0
    requires forall c | c in db.colorings && c.txo == t ::
      if c.Incoming() then !db.StatusOf(c.batch).Pending()
      else !db.StatusOf(c.batch).Initiated? && !db.StatusOf(c.batch).WaitingCounterparty?
    ensures InputUnspent(db.Row(t))
  {
    forall a | a in db.Allocations(t)
      ensures !(a.incoming && a.status.Pending()) && !a.Reserves()
    {
      AllocationMember(db, t, a);
    }
  }

  /** An output that a live batch spends, and that still passes for an input: the batch has no coloring on it. */
  ghost predicate BareInput(db: Db, b: nat, t: nat)
  {
    && b < |db.batches| && db.batches[b].Live() && t in db.batches[b].spends
    && t < |db.txos| && !db.txos[t].spent && InputUnspent(db.Row(t))
  }

  /** The wallet issues an asset on the bare input, prepares to send it, and the first batch goes out. */
  function SharingEvents(b: nat, t: nat, asset: AssetId, n: nat): seq<Event>
  {
    [IssueAsset([Entry(t, asset, Issue, Fungible(n))]),
     Begin({t}, [], [Entry(t, asset, Input, Fungible(n))], []),
     Broadcast(b)]
  }

  function Issued(db: Db, t: nat, asset: AssetId, n: nat): Db
  {
    db.(batches := db.batches + [Batch(Settled, true, {}, {}, None, None)],
        colorings := db.colorings + [Coloring(t, |db.batches|, asset, Issue, Fungible(n))])
  }

  function Taken(db: Db, t: nat, asset: AssetId, n: nat): Db
  {
    db.(batches := db.batches + [Batch(Initiated, false, {t}, {}, None, None)],
        colorings := db.colorings + [Coloring(t, |db.batches|, asset, Input, Fungible(n))])
  }

  lemma IssueOnBareInput(db: Db, b: nat, t: nat, asset: AssetId, n: nat)
    requires db.Valid() && BareInput(db, b, t)
    ensures var e := IssueAsset([Entry(t, asset, Issue, Fungible(n))]);
      WalletAllows(db, e) && Step(db, e) == Issued(db, t, asset, n)
  {
    var e := Entry(t, asset, Issue, Fungible(n));
    assert db.Row(t).allocations == db.Allocations(t);
    assert Tag([e], |db.batches|) == [Coloring(t, |db.batches|, asset, Issue, Fungible(n))];
  }

  lemma IssuedIsReady(db: Db, b: nat, t: nat, asset: AssetId, n: nat)
    requires db.Valid() && BareInput(db, b, t)
    ensures InputUnspent(Issued(db, t, asset, n).Row(t))
  {
    var issued := Issued(db, t, asset, n);
    SpendableInput(db, t);
    IssuedWaitsOn(db, t, asset, n);
    forall c | c in issued.colorings && c.txo == t
      ensures if c.Incoming() then !issued.StatusOf(c.batch).Pending()
              else !issued.StatusOf(c.batch).Initiated? && !issued.StatusOf(c.batch).WaitingCounterparty?
    {
      assert c in db.colorings || c == Coloring(t, |db.batches|, asset, Issue, Fungible(n));
    }
    ReadyInput(issued, t);
  }

  lemma IssuedWaitsOn(db: Db, t: nat, asset: AssetId, n: nat)
    ensures Issued(db, t, asset, n).PendingBlinded(t) == db.PendingBlinded(t)
  {
    FilterConcat(db.batches, [Batch(Settled, true, {}, {}, None, None)], WaitsOn(t));
    FilterNone([Batch(Settled, true, {}, {}, None, None)], WaitsOn(t));
  }

  /** A batch taking what has just been placed on an output. */
  lemma SendNewest(db: Db, others: seq<Coloring>, c: Coloring, n: nat)
    requires db.colorings == others + [c]
    requires c.Incoming() && c.assignment == Fungible(n) && !db.StatusOf(c.batch).Failed?
    requires c.txo < |db.txos| && !db.txos[c.txo].spent && InputUnspent(db.Row(c.txo))
    ensures var e := Begin({c.txo}, [], [Entry(c.txo, c.asset, Input, Fungible(n))], []);
      WalletAllows(db, e) && Step(db, e) == Taken(db, c.txo, c.asset, n)
  {
    var entry := Entry(c.txo, c.asset, Input, Fungible(n));
    forall a: AssetId
      ensures Sum([entry], AmountOf(a)) <= Sum(db.colorings, LiveOn(db, {c.txo}, a))
    {
      NewestHolds(db, others, c, a);
    }
    var k := |db.batches|;
    assert Tag([entry], k) == [Coloring(c.txo, k, c.asset, Input, Fungible(n))] && Tag([], k) == [];
    assert Indices(|db.txos|, 0) == {};
    assert db.txos + [] == db.txos;
  }

  lemma NewestHolds(db: Db, others: seq<Coloring>, c: Coloring, a: AssetId)
    requires db.colorings == others + [c]
    requires c.Incoming() && !db.SpentAt(c.txo) && !db.StatusOf(c.batch).Failed?
    ensures Sum([Entry(c.txo, c.asset, Input, c.assignment)], AmountOf(a))
         <= Sum(db.colorings, LiveOn(db, {c.txo}, a))
  {
    SumAppend(others, c, LiveOn(db, {c.txo}, a));
    SumNonNegative(others, LiveOn(db, {c.txo}, a));
    SumAppend([], Entry(c.txo, c.asset, Input, c.assignment), AmountOf(a));
  }

  lemma IssueThenSend(db: Db, b: nat, t: nat, asset: AssetId, n: nat)
    requires db.Valid() && BareInput(db, b, t)
    ensures var e := SharingEvents(b, t, asset, n);
      && WalletAllows(Issued(db, t, asset, n), e[1])
      && Step(Issued(db, t, asset, n), e[1]) == Taken(Issued(db, t, asset, n), t, asset, n)
  {
    IssuedIsReady(db, b, t, asset, n);
    SendNewest(Issued(db, t, asset, n), db.colorings, Coloring(t, |db.batches|, asset, Issue, Fungible(n)), n);
  }

  lemma SharingBroadcast(db: Db, b: nat, t: nat, asset: AssetId, n: nat)
    requires db.Valid() && BareInput(db, b, t)
    requires forall x | x in db.batches :: x.requested.None?
    requires forall c | c in db.colorings :: c.asset != asset
    ensures var begun := Taken(Issued(db, t, asset, n), t, asset, n);
      && WalletAllows(begun, Broadcast(b))
      && GetAssetBalance(Step(begun, Broadcast(b)), asset).future == 0 - n
  {
    var begun := Taken(Issued(db, t, asset, n), t, asset, n);
    var k := |db.batches|;
    SharedRows(db, b, t, asset, n);
    var last := Step(begun, Broadcast(b));
    StepKeepsRows(begun, Broadcast(b));
    StrandedSend(last, db.colorings, Coloring(t, k, asset, Issue, Fungible(n)),
                 Coloring(t, k + 1, asset, Input, Fungible(n)), asset, n);
  }

  /** The rows before the first batch goes out. */
  lemma SharedRows(db: Db, b: nat, t: nat, asset: AssetId, n: nat)
    requires db.Valid() && BareInput(db, b, t) && NoRequests(db)
    ensures var begun := Taken(Issued(db, t, asset, n), t, asset, n);
      && begun.Valid() && NoRequests(begun) && WalletAllows(begun, Broadcast(b))
      && |begun.batches| == |db.batches| + 2 && begun.batches[b] == db.batches[b]
      && begun.batches[|db.batches| + 1].status == Initiated
  {
    var issued := Issued(db, t, asset, n);
    AddedRows(db, Batch(Settled, true, {}, {}, None, None));
    assert issued.Valid() && NoRequests(issued);
    var begun := Taken(issued, t, asset, n);
    AddedRows(issued, Batch(Initiated, false, {t}, {}, None, None));
  }

  /** An amount taken from an output that is gone counts against the future balance. */
  lemma StrandedSend(last: Db, old_: seq<Coloring>, c: Coloring, d: Coloring, asset: AssetId, n: nat)
    requires last.Valid() && last.colorings == old_ + [c] + [d]
    requires forall o | o in old_ :: o.asset != asset
    requires c.Incoming() && last.SpentAt(c.txo)
    requires d.kind.Input? && d.asset == asset && d.assignment == Fungible(n) && last.StatusOf(d.batch).Initiated?
    requires forall x | x in last.batches :: x.requested.None?
    ensures GetAssetBalance(last, asset).future == 0 - n
  {
    FutureByColoring(last, asset);
    SumAppend(old_, c, FutureWeight(last, asset));
    SumAppend(old_ + [c], d, FutureWeight(last, asset));
    SumZero(old_, FutureWeight(last, asset));
    SumZero(last.batches, WitnessPending(asset));
  }

  /**
   * The wallet's own checks let an asset be issued on, and then sent from, an output that a pending
   * transaction already spends for its value. When that transaction goes out first, the future balance of
   * the asset is negative: reading it panics.
   */
  lemma SharedFeeInputPanics(db: Db, b: nat, t: nat, asset: AssetId, n: nat)
    requires db.Valid() && BareInput(db, b, t)
    requires forall c | c in db.colorings :: c.asset != asset
    requires forall x | x in db.batches :: x.requested.None?
    ensures Runs(db, SharingEvents(b, t, asset, n))
    ensures GetAssetBalance(After(db, SharingEvents(b, t, asset, n)), asset).future == 0 - n
  {
    var e, issued := SharingEvents(b, t, asset, n), Issued(db, t, asset, n);
    IssueOnBareInput(db, b, t, asset, n);
    IssueThenSend(db, b, t, asset, n);
    SharingBroadcast(db, b, t, asset, n);
    RunsThree(db, e[0], e[1], e[2], issued, Taken(issued, t, asset, n));
  }

  // ---------------------------------------------------------------- exactly when a run can panic

  /** No witness invoice has asked for an amount. */
  ghost predicate NoRequests(db: Db)
  {
    forall x | x in db.batches :: x.requested.None?
  }

  lemma AddedRows(db: Db, batch: Batch)
    requires NoRequests(db) && batch.requested.None?
    ensures NoRequests(db.(batches := db.batches + [batch]))
  {
  }

  lemma StepKeepsRows(db: Db, e: Event)
    requires db.Valid() && NoRequests(db) && WalletAllows(db, e)
    ensures Step(db, e).Valid() && NoRequests(Step(db, e))
  {
    var db', k := Step(db, e), |db.batches|;
    forall c | c in db'.colorings && c !in db.colorings
      ensures c.txo < |db'.txos| && c.batch < |db'.batches|
    {
      match e
      case Begin(_, inputs, _, changes) => BeginMember(db, e, c);
      case IssueAsset(issues) => TagMember(issues, k, c);
      case Validate(b, receives, _) => TagMember(receives, b, c);
        assert db.batches[b] in db.batches;
      case _ =>
    }
    forall x | x in db'.batches
      ensures x.requested.None? && (x.blinded.Some? ==> x.blinded.value < |db'.txos|)
      ensures forall t | t in x.spends || t in x.creates :: t < |db'.txos|
    {
      var i :| 0 <= i < |db'.batches| && db'.batches[i] == x;
      if i < k {
        assert db.batches[i] in db.batches;
      }
    }
  }

  lemma {:induction false} RunKeepsRows(db: Db, events: seq<Event>)
    requires db.Valid() && NoRequests(db) && Runs(db, events)
    ensures After(db, events).Valid() && NoRequests(After(db, events))
  {
    if events != [] {
      RunKeepsRows(db, events[..|events| - 1]);
      StepKeepsRows(After(db, events[..|events| - 1]), events[|events| - 1]);
    }
  }

  /** A step can only share an output that a live batch has left bare. */
  lemma SharingNeedsBareInput(db: Db, e: Event)
    requires Inv(db) && WalletAllows(db, e) && !Unshared(db, e)
    ensures exists b, t :: BareInput(db, b, t)
  {
    var t := SharedOutput(db, e);
    var b :| 0 <= b < |db.batches| && db.batches[b].Live() && t in db.batches[b].spends;
    assert BareInput(db, b, t);
  }

  /** The output that a step shares passes for an input. */
  lemma SharedOutput(db: Db, e: Event) returns (t: nat)
    requires Inv(db) && WalletAllows(db, e) && !Unshared(db, e)
    ensures t < |db.txos| && !db.txos[t].spent && InputUnspent(db.Row(t)) && !Unclaimed(db, t)
  {
    match e
    case Begin(spends, _, _, changes) =>
      if c :| c in db.colorings && c.txo in spends && Worth(db, c) && !Unclaimed(db, c.txo) {
        t := c.txo;
      } else {
        var c :| c in changes && c.txo < |db.txos| && !Unclaimed(db, c.txo);
        t := c.txo;
        HostIsReady(db, t);
      }
    case IssueAsset(issues) =>
      var i :| i in issues && !Unclaimed(db, i.txo);
      t := i.txo;
      HostIsReady(db, t);
    case Invoice(o) =>
      t := o;
      HostIsReady(db, t);
  }

  /** A claimed output that may host an allocation has nothing pending on it. */
  lemma HostIsReady(db: Db, t: nat)
    requires Inv(db) && MayHost(db, t) && !Unclaimed(db, t)
    ensures InputUnspent(db.Row(t))
  {
    var b :| 0 <= b < |db.batches| && db.batches[b].Live() && t in db.batches[b].spends;
    forall c | c in db.colorings && c.txo == t
      ensures if c.Incoming() then !db.StatusOf(c.batch).Pending()
              else !db.StatusOf(c.batch).Initiated? && !db.StatusOf(c.batch).WaitingCounterparty?
    {
      if c.Incoming() {
        assert Worth(db, c) ==> db.StatusOf(c.batch).Settled?;
      } else {
        AllocationMember(db, t, db.AllocationOf(c));
        assert !db.AllocationOf(c).Reserves();
      }
    }
    NoneWaiting(db, t);
    ReadyInput(db, t);
  }

  lemma NoneWaiting(db: Db, t: nat)
    requires Inv(db) && !Unclaimed(db, t)
    ensures db.PendingBlinded(t) == 0
  {
    forall x | x in db.batches
      ensures !WaitsOn(t)(x)
    {
      var i :| 0 <= i < |db.batches| && db.batches[i] == x;
    }
    FilterNone(db.batches, WaitsOn(t));
  }

  ghost predicate ReachesBareInput(db: Db)
  {
    exists events, b, t :: Runs(db, events) && BareInput(After(db, events), b, t)
  }

  ghost predicate CanPanic(db: Db)
  {
    exists events, asset :: Runs(db, events) && GetAssetBalance(After(db, events), asset).future < 0
  }

  lemma {:induction false} WithoutBareInputUnshared(db: Db, events: seq<Event>)
    requires Inv(db) && Runs(db, events) && !ReachesBareInput(db)
    ensures UnsharedRun(db, events)
  {
    if events != [] {
      var before := events[..|events| - 1];
      WithoutBareInputUnshared(db, before);
      RunKeepsInv(db, before);
      if !Unshared(After(db, before), events[|events| - 1]) {
        SharingNeedsBareInput(After(db, before), events[|events| - 1]);
      }
    }
  }

  function LongestName(cs: seq<Coloring>): (n: nat)
    ensures forall c | c in cs :: |c.asset| <= n
  {
    if cs == [] then 0
    else
      var n := LongestName(cs[..|cs| - 1]);
      if n < |cs[|cs| - 1].asset| then |cs[|cs| - 1].asset| else n
  }

  lemma BareInputPanics(db: Db, events: seq<Event>, b: nat, t: nat)
    requires db.Valid() && NoRequests(db) && Runs(db, events) && BareInput(After(db, events), b, t)
    ensures CanPanic(db)
  {
    RunKeepsRows(db, events);
    var asset := seq(LongestName(After(db, events).colorings) + 1, _ => 'x');
    SharedFeeInputPanics(After(db, events), b, t, asset, 1);
    RunsInTurn(db, events, SharingEvents(b, t, asset, 1));
    Panics(db, events + SharingEvents(b, t, asset, 1), asset);
  }

  lemma Panics(db: Db, events: seq<Event>, asset: AssetId)
    requires Runs(db, events) && GetAssetBalance(After(db, events), asset).future < 0
    ensures CanPanic(db)
  {
  }

  lemma NoBareInputNoPanic(db: Db, events: seq<Event>, asset: AssetId)
    requires Inv(db) && Runs(db, events) && !ReachesBareInput(db)
    ensures GetAssetBalance(After(db, events), asset).future >= 0
  {
    WithoutBareInputUnshared(db, events);
    BalancesNeverPanic(db, events, asset);
  }

  /**
   * From a sound state some run of the wallet ends with a balance that cannot be read, if and only if some
   * run reaches a bare input: an output that a pending transaction spends and that still passes for an input.
   */
  lemma PanicsIffBareInput(db: Db)
    requires Inv(db) && NoRequests(db)
    ensures CanPanic(db) <==> ReachesBareInput(db)
  {
    if ReachesBareInput(db) {
      var events, b, t :| Runs(db, events) && BareInput(After(db, events), b, t);
      BareInputPanics(db, events, b, t);
    } else if CanPanic(db) {
      var events, asset :| Runs(db, events) && GetAssetBalance(After(db, events), asset).future < 0;
      NoBareInputNoPanic(db, events, asset);
    }
  }

  // ---------------------------------------------------------------- a bare input arises

  const T0 := Txo(Outpoint("a", 0), false, true, false, 1000)
  const T1 := Txo(Outpoint("a", 1), false, true, false, 1000)
  const ISSUED := Batch(Settled, true, {}, {}, None, None)
  const SENDING := Batch(Initiated, false, {0, 1}, {}, None, None)
  const PLACED := Coloring(0, 0, "x", Issue, Fungible(10))
  const TAKEN := Coloring(0, 1, "x", Input, Fungible(10))

  /** Two known outputs; an asset issued on the first; a transfer spending it, and the second for its fee. */
  const TWO_OUTPUTS := Db([T0, T1], [], [])
  const WITH_X := Db([T0, T1], [ISSUED], [PLACED])
  const SENDING_X := Db([T0, T1], [ISSUED, SENDING], [PLACED, TAKEN])

  const ISSUE_X := IssueAsset([Entry(0, "x", Issue, Fungible(10))])
  const SEND_X := Begin({0, 1}, [], [Entry(0, "x", Input, Fungible(10))], [])
  const BARE_RUN: seq<Event> := [ISSUE_X] + [SEND_X]

  lemma XIssued()
    ensures Inv(TWO_OUTPUTS) && WalletAllows(TWO_OUTPUTS, ISSUE_X) && Step(TWO_OUTPUTS, ISSUE_X) == WITH_X
  {
    assert Tag([Entry(0, "x", Issue, Fungible(10))], 0) == [PLACED];
  }

  lemma XHeld(a: AssetId)
    ensures Sum([Entry(0, "x", Input, Fungible(10))], AmountOf(a)) <= Sum(WITH_X.colorings, LiveOn(WITH_X, {0, 1}, a))
  {
    NewestHolds(WITH_X, [], PLACED, a);
    SumAppend([], PLACED, LiveOn(WITH_X, {0, 1}, a));
    SumAppend([], PLACED, LiveOn(WITH_X, {0}, a));
    assert [] + [PLACED] == WITH_X.colorings;
  }

  lemma XReady(t: nat)
    requires t < 2
    ensures InputUnspent(WITH_X.Row(t))
  {
    FilterNone(WITH_X.batches, WaitsOn(t));
    ReadyInput(WITH_X, t);
  }

  lemma XAllowed()
    ensures WalletAllows(WITH_X, SEND_X)
  {
    XReady(0);
    XReady(1);
    forall a: AssetId
      ensures Sum(SEND_X.inputs, AmountOf(a)) <= Sum(WITH_X.colorings, LiveOn(WITH_X, SEND_X.spends, a))
    {
      XHeld(a);
    }
  }

  lemma XSent()
    ensures WalletAllows(WITH_X, SEND_X) && Step(WITH_X, SEND_X) == SENDING_X
  {
    XAllowed();
    assert Tag([Entry(0, "x", Input, Fungible(10))], 1) == [TAKEN] && Tag([], 1) == [];
    assert Indices(2, 0) == {};
  }

  lemma XIsBare()
    ensures BareInput(SENDING_X, 1, 1)
  {
    FilterNone(SENDING_X.batches, WaitsOn(1));
    ReadyInput(SENDING_X, 1);
  }

  /** From two empty outputs: issue one asset, send it with a fee input, and a bare input is there. */
  lemma BareInputArises()
    ensures Inv(TWO_OUTPUTS) && NoRequests(TWO_OUTPUTS)
    ensures Runs(TWO_OUTPUTS, BARE_RUN) && After(TWO_OUTPUTS, BARE_RUN) == SENDING_X
    ensures BareInput(SENDING_X, 1, 1)
  {
    XIssued();
    RunsOneMore(TWO_OUTPUTS, [], ISSUE_X);
    assert [] + [ISSUE_X] == [ISSUE_X];
    XSent();
    RunsOneMore(TWO_OUTPUTS, [ISSUE_X], SEND_X);
    XIsBare();
  }

  lemma OnlyX()
    ensures SENDING_X.Valid() && NoRequests(SENDING_X) && forall c | c in SENDING_X.colorings :: c.asset != "y"
  {
    assert "x"[0] != "y"[0];
  }

  lemma OthersPanics(n: nat)
    ensures Runs(SENDING_X, SharingEvents(1, 1, "y", n))
    ensures GetAssetBalance(After(SENDING_X, SharingEvents(1, 1, "y", n)), "y").future == 0 - n
  {
    OnlyX();
    XIsBare();
    SharedFeeInputPanics(SENDING_X, 1, 1, "y", n);
  }

  /** The whole run, from two empty outputs to a balance that cannot be read. */
  lemma FeeInputPanics(n: nat)
    ensures Runs(TWO_OUTPUTS, BARE_RUN + SharingEvents(1, 1, "y", n))
    ensures GetAssetBalance(After(TWO_OUTPUTS, BARE_RUN + SharingEvents(1, 1, "y", n)), "y").future == 0 - n
  {
    BareInputArises();
    OthersPanics(n);
    RunsInTurn(TWO_OUTPUTS, BARE_RUN, SharingEvents(1, 1, "y", n));
  }
}
