/** Runs of the wallet's transfers: what every step keeps, and what happens to the balances. */
module WalletRuns {

  import opened Common
  import opened Assignments
  import opened Selection
  import opened Balances

  /** A coloring row before it is attached to a batch. */
  datatype Entry = Entry(txo: nat, asset: AssetId, kind: ColoringType, assignment: Assignment)

  datatype Event =
    | Discover(found: seq<Txo>)
    | Begin(spends: set<nat>, newTxos: seq<Txo>, inputs: seq<Entry>, changes: seq<Entry>)
    | End(b: nat)
    | Broadcast(b: nat)
    | Settle(b: nat)
    | Fail(b: nat)
    | IssueAsset(issues: seq<Entry>)
    | Invoice(t: nat)
    | Validate(b: nat, receives: seq<Entry>, status: TransferStatus)
    | Advance(b: nat, status: TransferStatus)

  // ---------------------------------------------------------------- steps

  function Tag(entries: seq<Entry>, b: nat): seq<Coloring>
  {
    seq(|entries|, i requires 0 <= i < |entries| =>
      Coloring(entries[i].txo, b, entries[i].asset, entries[i].kind, entries[i].assignment))
  }

  /** The k indices from n on. */
  function Indices(n: nat, k: nat): (r: set<nat>)
    ensures forall t :: t in r <==> n <= t < n + k
  {
    if k == 0 then {} else Indices(n, k - 1) + {n + k - 1}
  }

  function WithStatus(db: Db, b: nat, s: TransferStatus): Db
    requires b < |db.batches|
  {
    db.(batches := db.batches[b := db.batches[b].(status := s)])
  }

  /** Inputs become spent, and the outputs of the broadcast transaction become known. */
  function MarkTxos(txos: seq<Txo>, spends: set<nat>, creates: set<nat>): seq<Txo>
  {
    seq(|txos|, t requires 0 <= t < |txos| =>
      txos[t].(spent := txos[t].spent || t in spends, exists_ := txos[t].exists_ || t in creates))
  }

  function Step(db: Db, e: Event): Db
    requires WalletAllows(db, e)
  {
    var n, k := |db.txos|, |db.batches|;
    match e
    case Discover(found) => db.(txos := db.txos + found)
    case Begin(spends, newTxos, inputs, changes) =>
      Db(db.txos + newTxos,
         db.batches + [Batch(Initiated, false, spends, Indices(n, |newTxos|), None, None)],
         db.colorings + (Tag(inputs, k) + Tag(changes, k)))
    case End(b) => WithStatus(db, b, WaitingCounterparty)
    case Broadcast(b) =>
      WithStatus(db, b, WaitingConfirmations).(
        txos := MarkTxos(db.txos, db.batches[b].spends, db.batches[b].creates))
    case Settle(b) => WithStatus(db, b, Settled)
    case Fail(b) => WithStatus(db, b, Failed)
    case IssueAsset(issues) =>
      db.(batches := db.batches + [Batch(Settled, true, {}, {}, None, None)],
          colorings := db.colorings + Tag(issues, k))
    case Invoice(t) =>
      db.(batches := db.batches + [Batch(WaitingCounterparty, true, {}, {}, Some(t), None)])
    case Validate(b, receives, s) =>
      WithStatus(db, b, s).(colorings := db.colorings + Tag(receives, b))
    case Advance(b, s) => WithStatus(db, b, s)
  }

  // ---------------------------------------------------------------- guards

  /** An existing output may host a new allocation. */
  predicate MayHost(db: Db, t: nat)
  {
    && t < |db.txos|
    && !db.txos[t].spent && db.txos[t].exists_ && !db.txos[t].pendingWitness
    && !(exists a | a in db.Allocations(t) :: a.Reserves())
  }

  function AmountOf(asset: AssetId): Entry -> int
  {
    (e: Entry) => if e.asset == asset then e.assignment.MainAmount() else 0
  }

  /** Live incoming amounts of an asset on the given outputs. */
  function LiveOn(db: Db, spends: set<nat>, asset: AssetId): Coloring -> int
  {
    (c: Coloring) =>
      if c.Incoming() && c.asset == asset && c.txo in spends && !db.SpentAt(c.txo) && !db.StatusOf(c.batch).Failed?
      then c.assignment.MainAmount() else 0
  }

  /** The wallet takes the step: it passes the wallet's checks, and a begun batch is a prepared one. */
  ghost predicate WalletAllows(db: Db, e: Event)
  {
    WalletChecks(db, e) && (e.Begin? ==> Declares(db, e))
  }

  /** What the preparation of a batch guarantees: of no asset does it take more than its inputs hold. */
  ghost predicate Declares(db: Db, e: Event)
    requires e.Begin?
  {
    forall asset :: Sum(e.inputs, AmountOf(asset)) <= Sum(db.colorings, LiveOn(db, e.spends, asset))
  }

  /** The checks the wallet makes before each step. */
  ghost predicate WalletChecks(db: Db, e: Event)
  {
    var n := |db.txos|;
    match e
    // outputs found by a synchronisation, those of a transaction that made them included
    case Discover(found) => forall x | x in found :: !x.spent && x.exists_
    case Begin(spends, newTxos, inputs, changes) =>
      && (forall x | x in newTxos :: !x.spent && !x.exists_ && !x.pendingWitness)
      && (forall t | t in spends :: t < n && !db.txos[t].spent && InputUnspent(db.Row(t)))
      // every operation spends some asset
      && inputs != []
      && (forall i | i in inputs :: i.kind.Input? && i.txo in spends)
      && (forall c | c in changes ::
            && (c.kind.Change? || c.kind.Issue?)
            && c.txo < n + |newTxos| && (c.txo < n ==> c.txo !in spends && MayHost(db, c.txo)))
    case End(b) => b < |db.batches| && !db.batches[b].incoming && db.batches[b].status.Initiated?
    case Broadcast(b) => b < |db.batches| && db.batches[b].Live()
    case Settle(b) => b < |db.batches| && !db.batches[b].incoming && db.batches[b].status.WaitingConfirmations?
    case Fail(b) => b < |db.batches| && db.batches[b].status.IsFallible()
    case IssueAsset(issues) => forall i | i in issues :: i.kind.Issue? && MayHost(db, i.txo)
    case Invoice(t) => MayHost(db, t)
    case Validate(b, receives, s) =>
      && b < |db.batches| && db.batches[b].incoming && db.batches[b].status.WaitingCounterparty?
      && db.batches[b].blinded.Some?
      && (forall r | r in receives :: r.kind.Receive? && r.txo == db.batches[b].blinded.value)
      && (s.WaitingSafeHeight? || s.WaitingBroadcast? || s.WaitingConfirmations?)
    case Advance(b, s) =>
      && b < |db.batches| && db.batches[b].incoming
      && match db.batches[b].status
         case WaitingSafeHeight => s.WaitingBroadcast? || s.WaitingConfirmations? || s.Failed?
         case WaitingBroadcast => s.WaitingConfirmations? || s.Settled? || s.Failed?
         case WaitingConfirmations => s.Settled?
         case _ => false
  }

  /** No transaction still to be broadcast spends the output. */
  ghost predicate Unclaimed(db: Db, t: nat)
  {
    forall b | 0 <= b < |db.batches| && db.batches[b].Live() :: t !in db.batches[b].spends
  }

  /** A live incoming allocation: it will be worth something as long as its output is unspent. */
  ghost predicate Worth(db: Db, c: Coloring)
  {
    c.Incoming() && !db.SpentAt(c.txo) && !db.StatusOf(c.batch).Failed?
  }

  /**
   * The condition the wallet does not check: nothing is placed on, or taken as an RGB input from, an
   * output that a pending transaction spends without any coloring of its own on it.
   */
  ghost predicate Unshared(db: Db, e: Event)
  {
    match e
    case Begin(spends, newTxos, inputs, changes) =>
      && (forall c | c in db.colorings && c.txo in spends && Worth(db, c) :: Unclaimed(db, c.txo))
      && (forall c | c in changes && c.txo < |db.txos| :: Unclaimed(db, c.txo))
    case IssueAsset(issues) => forall i | i in issues :: Unclaimed(db, i.txo)
    case Invoice(t) => Unclaimed(db, t)
    case _ => true
  }

  // ---------------------------------------------------------------- invariant

  function OwnInput(b: nat, asset: AssetId): Coloring -> int
  {
    (c: Coloring) => if c.kind.Input? && c.batch == b && c.asset == asset then c.assignment.MainAmount() else 0
  }

  /** Outgoing batches only go through their own statuses; inputs belong to outgoing batches. */
  ghost predicate Shaped(db: Db)
  {
    && db.Valid()
    && (forall b | 0 <= b < |db.batches| && !db.batches[b].incoming ::
          var s := db.batches[b].status;
          s.Initiated? || s.WaitingCounterparty? || s.WaitingConfirmations? || s.Settled? || s.Failed?)
    && (forall c | c in db.colorings && c.kind.Input? ::
          !db.batches[c.batch].incoming && c.txo in db.batches[c.batch].spends)
    && (forall b | 0 <= b < |db.batches| && db.batches[b].blinded.Some? :: db.batches[b].incoming)
  }

  /** Inputs of a transaction that is out lie on spent outputs. */
  ghost predicate SpentInputs(db: Db)
  {
    forall c | c in db.colorings && c.kind.Input? ::
      db.StatusOf(c.batch).WaitingConfirmations? || db.StatusOf(c.batch).Settled? ==> db.SpentAt(c.txo)
  }

  /** What a batch declares as its inputs, and what the outputs it spends hold, of one asset. */
  function Declared(db: Db, b: nat, asset: AssetId): int
  {
    Sum(db.colorings, OwnInput(b, asset))
  }

  function Held(db: Db, b: nat, asset: AssetId): int
    requires b < |db.batches|
  {
    Sum(db.colorings, LiveOn(db, db.batches[b].spends, asset))
  }

  /** A live batch takes no more of any asset than the outputs it spends hold. */
  ghost predicate TakesHeld(db: Db)
  {
    forall b, asset | 0 <= b < |db.batches| && db.batches[b].Live() :: Declared(db, b, asset) <= Held(db, b, asset)
  }

  /** What a live batch's inputs hold is settled, and claimed by no other live batch. */
  ghost predicate ClaimedOnce(db: Db)
  {
    forall c, b | c in db.colorings && Worth(db, c) && 0 <= b < |db.batches| && db.batches[b].Live()
                  && c.txo in db.batches[b].spends ::
      && db.StatusOf(c.batch).Settled?
      && forall b' | 0 <= b' < |db.batches| && db.batches[b'].Live() && c.txo in db.batches[b'].spends :: b' == b
  }

  /** Live incoming allocations sit on known outputs, or on ones their own pending transaction creates. */
  ghost predicate WellHosted(db: Db)
  {
    forall c | c in db.colorings && c.Incoming() && !db.StatusOf(c.batch).Failed? ::
      && c.txo < |db.txos| && !db.txos[c.txo].pendingWitness
      && (db.txos[c.txo].exists_
          || (c.batch < |db.batches| && db.batches[c.batch].Live() && c.txo in db.batches[c.batch].creates))
  }

  /** A blind invoice that still waits. */
  predicate Open(batch: Batch)
  {
    batch.incoming && batch.status.WaitingCounterparty? && batch.blinded.Some?
  }

  /** Outputs promised to a blind invoice are known. */
  ghost predicate InvoicesKnown(db: Db)
  {
    forall b | 0 <= b < |db.batches| && Open(db.batches[b]) ::
      var t := db.batches[b].blinded.value;
      t < |db.txos| && db.txos[t].exists_ && !db.txos[t].pendingWitness
  }

  /** Outputs promised to a blind invoice are unclaimed. */
  ghost predicate InvoicesFree(db: Db)
  {
    forall b | 0 <= b < |db.batches| && Open(db.batches[b]) :: Unclaimed(db, db.batches[b].blinded.value)
  }

  /** Everything sits where it may: what every run keeps, whether outputs are shared or not. */
  ghost predicate PlacedInv(db: Db)
  {
    Shaped(db) && SpentInputs(db) && WellHosted(db) && InvoicesKnown(db)
  }

  /** No output is claimed by two: what runs keep that share no output. */
  ghost predicate Inv(db: Db)
  {
    PlacedInv(db) && TakesHeld(db) && ClaimedOnce(db) && InvoicesFree(db)
  }

  // ---------------------------------------------------------------- preservation

  lemma TagMember(entries: seq<Entry>, b: nat, c: Coloring)
    ensures c in Tag(entries, b) <==>
      c.batch == b && Entry(c.txo, c.asset, c.kind, c.assignment) in entries
  {
    var e := Entry(c.txo, c.asset, c.kind, c.assignment);
    if c.batch == b && e in entries {
      var i :| 0 <= i < |entries| && entries[i] == e;
      assert Tag(entries, b)[i] == c;
    }
  }

  /** What an input may host, read off its row. */
  lemma SpendableInput(db: Db, t: nat)
    requires t < |db.txos| && InputUnspent(db.Row(t))
    ensures db.txos[t].exists_ && !db.txos[t].pendingWitness
    ensures forall c | c in db.colorings && c.txo == t ::
      if c.Incoming() then !db.StatusOf(c.batch).Pending()
      else !db.StatusOf(c.batch).Initiated? && !db.StatusOf(c.batch).WaitingCounterparty?
    ensures forall b | 0 <= b < |db.batches| && db.batches[b].incoming && db.batches[b].status.WaitingCounterparty? ::
      db.batches[b].blinded != Some(t)
  {
    forall c | c in db.colorings && c.txo == t
      ensures db.AllocationOf(c) in db.Allocations(t)
    {
      AllocationMember(db, t, db.AllocationOf(c));
    }
    forall b | b in db.batches
      ensures !WaitsOn(t)(b)
    {
      FilterMember(db.batches, WaitsOn(t), b);
      assert Filter(db.batches, WaitsOn(t)) == [];
    }
    forall b: nat | b < |db.batches|
      ensures !WaitsOn(t)(db.batches[b])
    {
    }
  }

  /** Neither side of a batch's account has moved. */
  ghost predicate SameAccount(db: Db, db': Db, x: nat, asset: AssetId)
    requires x < |db.batches| && x < |db'.batches|
  {
    Declared(db', x, asset) == Declared(db, x, asset) && Held(db', x, asset) == Held(db, x, asset)
  }

  /** Steps without new colorings leave a batch's account alone unless they touch what it spends. */
  lemma AccountCarries(db: Db, db': Db, x: nat, asset: AssetId)
    requires db.colorings == db'.colorings && x < |db.batches| <= |db'.batches|
    requires db'.batches[x].spends == db.batches[x].spends
    requires forall c | c in db.colorings && c.Incoming() && c.txo in db.batches[x].spends ::
      Worth(db, c) <==> Worth(db', c)
    ensures SameAccount(db, db', x, asset)
  {
    SumAgree(db.colorings, LiveOn(db, db.batches[x].spends, asset), LiveOn(db', db.batches[x].spends, asset));
  }

  // steps that only move one batch's status

  /** Status changes that revive nothing: along an outgoing batch's path, or of a pending incoming one. */
  ghost predicate Moves(db: Db, b: nat, s: TransferStatus)
  {
    && b < |db.batches|
    && if db.batches[b].incoming
       then db.batches[b].status.Pending() && !s.WaitingCounterparty? && !s.Initiated?
       else || (db.batches[b].status.Initiated? && s.WaitingCounterparty?)
            || (db.batches[b].status.WaitingConfirmations? && s.Settled?)
            || (db.batches[b].Live() && s.Failed?)
  }

  lemma MoveKeepsShape(db: Db, b: nat, s: TransferStatus)
    requires PlacedInv(db) && Moves(db, b, s)
    ensures Shaped(WithStatus(db, b, s)) && SpentInputs(WithStatus(db, b, s))
  {
  }

  /** Claimed amounts are settled, so a status change elsewhere does not touch them. */
  lemma MoveKeepsWorth(db: Db, b: nat, s: TransferStatus, c: Coloring, x: nat)
    requires Inv(db) && Moves(db, b, s)
    requires c in db.colorings && x < |db.batches| && WithStatus(db, b, s).batches[x].Live()
    requires c.txo in db.batches[x].spends
    ensures db.batches[x].Live()
    ensures Worth(db, c) <==> Worth(WithStatus(db, b, s), c)
  {
  }

  lemma MoveKeepsAccount(db: Db, b: nat, s: TransferStatus, x: nat, asset: AssetId)
    requires Inv(db) && Moves(db, b, s) && x < |db.batches| && WithStatus(db, b, s).batches[x].Live()
    ensures db.batches[x].Live() && SameAccount(db, WithStatus(db, b, s), x, asset)
  {
    var db' := WithStatus(db, b, s);
    forall c | c in db.colorings && c.txo in db.batches[x].spends
      ensures Worth(db, c) <==> Worth(db', c)
    {
      MoveKeepsWorth(db, b, s, c, x);
    }
    AccountCarries(db, db', x, asset);
  }

  lemma MoveKeepsClaims(db: Db, b: nat, s: TransferStatus)
    requires Inv(db) && Moves(db, b, s)
    ensures ClaimedOnce(WithStatus(db, b, s))
  {
    var db' := WithStatus(db, b, s);
    forall c, x | c in db.colorings && 0 <= x < |db.batches| && db'.batches[x].Live() && c.txo in db.batches[x].spends
      ensures db.batches[x].Live() && (Worth(db, c) <==> Worth(db', c))
    {
      MoveKeepsWorth(db, b, s, c, x);
    }
  }

  lemma MoveKeepsHosts(db: Db, b: nat, s: TransferStatus)
    requires PlacedInv(db) && Moves(db, b, s)
    ensures WellHosted(WithStatus(db, b, s)) && InvoicesKnown(WithStatus(db, b, s))
  {
  }

  lemma MoveKeepsPlaced(db: Db, b: nat, s: TransferStatus)
    requires PlacedInv(db) && Moves(db, b, s)
    ensures PlacedInv(WithStatus(db, b, s))
  {
    MoveKeepsShape(db, b, s);
    MoveKeepsHosts(db, b, s);
  }

  /** No output is claimed by two, and none that an invoice waits on by any. */
  ghost predicate ClaimsInv(db: Db)
  {
    ClaimedOnce(db) && InvoicesFree(db)
  }

  lemma MoveKeepsClaimsInv(db: Db, b: nat, s: TransferStatus)
    requires Inv(db) && Moves(db, b, s)
    ensures ClaimsInv(WithStatus(db, b, s))
  {
    MoveKeepsClaims(db, b, s);
    var db' := WithStatus(db, b, s);
    assert forall x | 0 <= x < |db.batches| && db'.batches[x].Live() :: db.batches[x].Live();
  }

  // broadcast

  lemma BroadcastKeepsShape(db: Db, b: nat)
    requires PlacedInv(db) && WalletAllows(db, Broadcast(b))
    ensures Shaped(Step(db, Broadcast(b))) && SpentInputs(Step(db, Broadcast(b)))
  {
  }

  /** The broadcast spends nothing that another live batch counts on. */
  lemma BroadcastKeepsWorth(db: Db, b: nat, c: Coloring, x: nat)
    requires Inv(db) && WalletAllows(db, Broadcast(b))
    requires c in db.colorings && x < |db.batches| && x != b && db.batches[x].Live() && c.txo in db.batches[x].spends
    ensures Worth(db, c) <==> Worth(Step(db, Broadcast(b)), c)
  {
  }

  lemma BroadcastKeepsAccount(db: Db, b: nat, x: nat, asset: AssetId)
    requires Inv(db) && WalletAllows(db, Broadcast(b))
    requires x < |db.batches| && Step(db, Broadcast(b)).batches[x].Live()
    ensures db.batches[x].Live() && SameAccount(db, Step(db, Broadcast(b)), x, asset)
  {
    var db' := Step(db, Broadcast(b));
    forall c | c in db.colorings && c.txo in db.batches[x].spends
      ensures Worth(db, c) <==> Worth(db', c)
    {
      BroadcastKeepsWorth(db, b, c, x);
    }
    AccountCarries(db, db', x, asset);
  }

  lemma BroadcastKeepsClaims(db: Db, b: nat)
    requires Inv(db) && WalletAllows(db, Broadcast(b))
    ensures ClaimedOnce(Step(db, Broadcast(b)))
  {
    var db' := Step(db, Broadcast(b));
    forall c, x | c in db.colorings && 0 <= x < |db.batches| && db'.batches[x].Live() && c.txo in db.batches[x].spends
      ensures db.batches[x].Live() && x != b && (Worth(db, c) <==> Worth(db', c))
    {
      BroadcastKeepsWorth(db, b, c, x);
    }
  }

  lemma BroadcastKeepsHosts(db: Db, b: nat)
    requires PlacedInv(db) && WalletAllows(db, Broadcast(b))
    ensures WellHosted(Step(db, Broadcast(b))) && InvoicesKnown(Step(db, Broadcast(b)))
  {
  }

  lemma BroadcastKeepsClaimsInv(db: Db, b: nat)
    requires Inv(db) && WalletAllows(db, Broadcast(b))
    ensures ClaimsInv(Step(db, Broadcast(b)))
  {
    BroadcastKeepsClaims(db, b);
    var db' := Step(db, Broadcast(b));
    assert forall x | 0 <= x < |db.batches| && db'.batches[x].Live() :: db.batches[x].Live();
  }

  // steps that add colorings

  /** db' has more rows than db, and the old ones are as they were. */
  ghost predicate Extends(db: Db, db': Db, added: seq<Coloring>)
  {
    && db.Valid()
    && db.txos <= db'.txos
    && |db.batches| <= |db'.batches|
    && (forall b | 0 <= b < |db.batches| ::
          db'.batches[b].spends == db.batches[b].spends && (db'.batches[b].Live() <==> db.batches[b].Live()))
    && db'.colorings == db.colorings + added
    && (forall c | c in db.colorings :: db'.StatusOf(c.batch).Failed? <==> db.StatusOf(c.batch).Failed?)
  }

  /** New colorings that neither belong to a batch nor sit on its inputs leave its account alone. */
  lemma ExtensionKeepsAccount(db: Db, db': Db, added: seq<Coloring>, x: nat, asset: AssetId)
    requires Extends(db, db', added) && x < |db.batches|
    requires forall c | c in added :: !(c.kind.Input? && c.batch == x)
    requires forall c | c in added && c.Incoming() :: c.txo !in db.batches[x].spends
    requires forall t | t in db.batches[x].spends :: t < |db.txos|
    ensures SameAccount(db, db', x, asset)
  {
    var spends := db.batches[x].spends;
    SumConcat(db.colorings, added, OwnInput(x, asset));
    SumConcat(db.colorings, added, LiveOn(db', spends, asset));
    SumZero(added, OwnInput(x, asset));
    SumZero(added, LiveOn(db', spends, asset));
    SumAgree(db.colorings, LiveOn(db, spends, asset), LiveOn(db', spends, asset));
  }

  /** Colorings that an incoming batch places on known, unclaimed outputs. */
  ghost predicate Places(db: Db, db': Db, added: seq<Coloring>)
  {
    && Extends(db, db', added)
    && (forall c | c in added :: c.Incoming() && Unclaimed(db, c.txo))
  }

  lemma PlacementKeepsAccount(db: Db, db': Db, added: seq<Coloring>, x: nat, asset: AssetId)
    requires Inv(db) && Places(db, db', added) && x < |db.batches| && db.batches[x].Live()
    ensures SameAccount(db, db', x, asset)
  {
    assert db.batches[x] in db.batches;
    ExtensionKeepsAccount(db, db', added, x, asset);
  }

  lemma PlacementKeepsClaims(db: Db, db': Db, added: seq<Coloring>)
    requires Inv(db) && Places(db, db', added)
    requires forall x | |db.batches| <= x < |db'.batches| :: !db'.batches[x].Live()
    requires forall c | c in db.colorings :: Worth(db, c) && db.StatusOf(c.batch).Settled? ==> db'.StatusOf(c.batch).Settled?
    ensures ClaimedOnce(db')
  {
    forall c, x | c in db'.colorings && Worth(db', c) && 0 <= x < |db'.batches| && db'.batches[x].Live()
                  && c.txo in db'.batches[x].spends
      ensures c in db.colorings && Worth(db, c) && db.batches[x].Live()
    {
      assert c in db.colorings || c in added;
    }
  }

  lemma IssuePlaces(db: Db, issues: seq<Entry>)
    requires Inv(db) && WalletAllows(db, IssueAsset(issues)) && Unshared(db, IssueAsset(issues))
    ensures Places(db, Step(db, IssueAsset(issues)), Tag(issues, |db.batches|))
    ensures forall c | c in Tag(issues, |db.batches|) :: MayHost(db, c.txo) && c.batch == |db.batches|
  {
    forall c | c in Tag(issues, |db.batches|)
      ensures c.Incoming() && Unclaimed(db, c.txo) && MayHost(db, c.txo) && c.batch == |db.batches|
    {
      TagMember(issues, |db.batches|, c);
    }
  }

  lemma ValidatePlaces(db: Db, b: nat, receives: seq<Entry>, s: TransferStatus)
    requires Inv(db) && WalletAllows(db, Validate(b, receives, s))
    ensures Places(db, Step(db, Validate(b, receives, s)), Tag(receives, b))
    ensures forall c | c in Tag(receives, b) :: c.txo == db.batches[b].blinded.value && c.batch == b
  {
    forall c | c in Tag(receives, b)
      ensures c.Incoming() && c.txo == db.batches[b].blinded.value && c.batch == b
    {
      TagMember(receives, b, c);
    }
  }

  /** Colorings on known outputs, with at most a new or a moved incoming batch. */
  ghost predicate PlacesKnown(db: Db, db': Db, added: seq<Coloring>)
  {
    && Extends(db, db', added) && db'.Valid() && db'.txos == db.txos
    && (forall x | 0 <= x < |db'.batches| && !db'.batches[x].incoming ::
          x < |db.batches| && db'.batches[x] == db.batches[x])
    && (forall x | 0 <= x < |db.batches| && db'.batches[x].incoming :: db.batches[x].incoming)
    && (forall c | c in added ::
          c.Incoming() && c.txo < |db.txos| && db.txos[c.txo].exists_ && !db.txos[c.txo].pendingWitness)
  }

  /** No invoice is opened by it. */
  ghost predicate OpensNone(db: Db, db': Db)
    requires |db.batches| <= |db'.batches|
  {
    && (forall x | 0 <= x < |db.batches| && Open(db'.batches[x]) ::
          Open(db.batches[x]) && db'.batches[x].blinded == db.batches[x].blinded)
    && (forall x | |db.batches| <= x < |db'.batches| :: db'.batches[x].blinded.None?)
  }

  lemma PlacementKeepsShape(db: Db, db': Db, added: seq<Coloring>)
    requires PlacedInv(db) && PlacesKnown(db, db', added)
    requires forall x | 0 <= x < |db'.batches| && db'.batches[x].blinded.Some? :: db'.batches[x].incoming
    ensures Shaped(db') && SpentInputs(db')
  {
    forall c | c in db'.colorings && c.kind.Input?
      ensures c in db.colorings && db'.batches[c.batch] == db.batches[c.batch]
    {
      assert c in db.colorings || c in added;
      assert !db.batches[c.batch].incoming;
    }
  }

  lemma PlacementKeepsHosts(db: Db, db': Db, added: seq<Coloring>)
    requires PlacedInv(db) && PlacesKnown(db, db', added)
    requires forall x | 0 <= x < |db.batches| :: db'.batches[x].creates == db.batches[x].creates
    ensures WellHosted(db')
  {
    forall c | c in db'.colorings && c.Incoming() && !db'.StatusOf(c.batch).Failed?
      ensures c.txo < |db.txos| && !db.txos[c.txo].pendingWitness
      ensures db.txos[c.txo].exists_
        || (c.batch < |db'.batches| && db'.batches[c.batch].Live() && c.txo in db'.batches[c.batch].creates)
    {
      assert c in db.colorings || c in added;
    }
  }

  lemma IssuePlacesKnown(db: Db, issues: seq<Entry>)
    requires PlacedInv(db) && WalletAllows(db, IssueAsset(issues))
    ensures PlacesKnown(db, Step(db, IssueAsset(issues)), Tag(issues, |db.batches|))
  {
    forall c | c in Tag(issues, |db.batches|)
      ensures c.Incoming() && MayHost(db, c.txo) && c.batch == |db.batches|
    {
      TagMember(issues, |db.batches|, c);
    }
  }

  lemma IssueKeepsPlaced(db: Db, issues: seq<Entry>)
    requires PlacedInv(db) && WalletAllows(db, IssueAsset(issues))
    ensures PlacedInv(Step(db, IssueAsset(issues)))
  {
    var db', added := Step(db, IssueAsset(issues)), Tag(issues, |db.batches|);
    IssuePlacesKnown(db, issues);
    PlacementKeepsShape(db, db', added);
    PlacementKeepsHosts(db, db', added);
  }

  lemma ValidatePlacesKnown(db: Db, b: nat, receives: seq<Entry>, s: TransferStatus)
    requires PlacedInv(db) && WalletAllows(db, Validate(b, receives, s))
    ensures PlacesKnown(db, Step(db, Validate(b, receives, s)), Tag(receives, b))
  {
    assert Open(db.batches[b]);
    forall c | c in Tag(receives, b)
      ensures c.Incoming() && c.txo == db.batches[b].blinded.value && c.batch == b
    {
      TagMember(receives, b, c);
    }
  }

  lemma ValidateKeepsPlaced(db: Db, b: nat, receives: seq<Entry>, s: TransferStatus)
    requires PlacedInv(db) && WalletAllows(db, Validate(b, receives, s))
    ensures PlacedInv(Step(db, Validate(b, receives, s)))
  {
    var db', added := Step(db, Validate(b, receives, s)), Tag(receives, b);
    ValidatePlacesKnown(db, b, receives, s);
    PlacementKeepsShape(db, db', added);
    PlacementKeepsHosts(db, db', added);
  }

  lemma InvoiceKeepsPlaced(db: Db, t: nat)
    requires PlacedInv(db) && WalletAllows(db, Invoice(t))
    ensures PlacedInv(Step(db, Invoice(t)))
  {
    var db' := Step(db, Invoice(t));
    assert db'.colorings == db.colorings + [];
    PlacementKeepsShape(db, db', []);
    PlacementKeepsHosts(db, db', []);
  }

  lemma DiscoverKeepsPlaced(db: Db, found: seq<Txo>)
    requires PlacedInv(db) && WalletAllows(db, Discover(found))
    ensures PlacedInv(Step(db, Discover(found)))
  {
    var db' := Step(db, Discover(found));
    assert forall t | 0 <= t < |db.txos| :: db'.txos[t] == db.txos[t];
  }

  lemma DiscoverPlaces(db: Db, found: seq<Txo>)
    requires PlacedInv(db) && WalletAllows(db, Discover(found))
    ensures Places(db, Step(db, Discover(found)), [])
  {
    assert Step(db, Discover(found)).colorings == db.colorings + [];
  }

  lemma DiscoverKeepsClaimsInv(db: Db, found: seq<Txo>)
    requires Inv(db) && WalletAllows(db, Discover(found))
    ensures ClaimsInv(Step(db, Discover(found)))
  {
    DiscoverPlaces(db, found);
    PlacementKeepsClaims(db, Step(db, Discover(found)), []);
  }

  lemma IssueKeepsClaimsInv(db: Db, issues: seq<Entry>)
    requires Inv(db) && WalletAllows(db, IssueAsset(issues)) && Unshared(db, IssueAsset(issues))
    ensures ClaimsInv(Step(db, IssueAsset(issues)))
  {
    var db', added := Step(db, IssueAsset(issues)), Tag(issues, |db.batches|);
    IssuePlaces(db, issues);
    PlacementKeepsClaims(db, db', added);
  }

  lemma ValidateKeepsClaimsInv(db: Db, b: nat, receives: seq<Entry>, s: TransferStatus)
    requires Inv(db) && WalletAllows(db, Validate(b, receives, s))
    ensures ClaimsInv(Step(db, Validate(b, receives, s)))
  {
    var db', added := Step(db, Validate(b, receives, s)), Tag(receives, b);
    ValidatePlaces(db, b, receives, s);
    PlacementKeepsClaims(db, db', added);
  }

  lemma InvoicePlaces(db: Db, t: nat)
    requires Inv(db) && WalletAllows(db, Invoice(t))
    ensures Places(db, Step(db, Invoice(t)), [])
  {
    assert Step(db, Invoice(t)).colorings == db.colorings + [];
  }

  lemma InvoiceKeepsClaimsInv(db: Db, t: nat)
    requires Inv(db) && WalletAllows(db, Invoice(t)) && Unshared(db, Invoice(t))
    ensures ClaimsInv(Step(db, Invoice(t)))
  {
    InvoicePlaces(db, t);
    PlacementKeepsClaims(db, Step(db, Invoice(t)), []);
  }

  // begin

  /** The colorings a begun batch adds. */
  function BeginColorings(db: Db, inputs: seq<Entry>, changes: seq<Entry>): seq<Coloring>
  {
    Tag(inputs, |db.batches|) + Tag(changes, |db.batches|)
  }

  lemma BeginMember(db: Db, e: Event, c: Coloring)
    requires e.Begin? && WalletAllows(db, e) && c in BeginColorings(db, e.inputs, e.changes)
    ensures c.batch == |db.batches|
    ensures if c.Incoming()
            then c.txo < |db.txos| + |e.newTxos| && (c.txo < |db.txos| ==> c.txo !in e.spends && MayHost(db, c.txo))
            else c.txo in e.spends
    ensures c.Incoming() && c.txo < |db.txos| && Unshared(db, e) ==> Unclaimed(db, c.txo)
  {
    TagMember(e.inputs, |db.batches|, c);
    TagMember(e.changes, |db.batches|, c);
  }

  lemma {:induction false} TaggedSum(entries: seq<Entry>, b: nat, asset: AssetId)
    requires forall i | i in entries :: i.kind.Input?
    ensures Sum(Tag(entries, b), OwnInput(b, asset)) == Sum(entries, AmountOf(asset))
  {
    if entries != [] {
      var n := |entries| - 1;
      TaggedSum(entries[..n], b, asset);
      assert Tag(entries, b)[..n] == Tag(entries[..n], b);
    }
  }

  lemma BeginOwnSum(db: Db, e: Event, asset: AssetId)
    requires db.Valid() && e.Begin? && WalletAllows(db, e)
    ensures Sum(Step(db, e).colorings, OwnInput(|db.batches|, asset)) == Sum(e.inputs, AmountOf(asset))
  {
    var k := |db.batches|;
    var own := OwnInput(k, asset);
    var taken, placed := Tag(e.inputs, k), Tag(e.changes, k);
    SumConcat(db.colorings, taken + placed, own);
    SumConcat(taken, placed, own);
    TaggedSum(e.inputs, k, asset);
    forall c | c in placed
      ensures own(c) == 0
    {
      TagMember(e.changes, k, c);
    }
    SumZero(placed, own);
    SumZero(db.colorings, own);
  }

  lemma LiveSumExtends(db: Db, db': Db, added: seq<Coloring>, spends: set<nat>, asset: AssetId)
    requires db'.colorings == db.colorings + added
    requires forall c | c in added && c.Incoming() :: c.txo !in spends
    requires forall c | c in db.colorings :: Worth(db', c) <==> Worth(db, c)
    ensures Sum(db'.colorings, LiveOn(db', spends, asset)) == Sum(db.colorings, LiveOn(db, spends, asset))
  {
    SumConcat(db.colorings, added, LiveOn(db', spends, asset));
    SumZero(added, LiveOn(db', spends, asset));
    SumAgree(db.colorings, LiveOn(db, spends, asset), LiveOn(db', spends, asset));
  }

  lemma BeginLiveSum(db: Db, e: Event, asset: AssetId)
    requires db.Valid() && e.Begin? && WalletAllows(db, e)
    ensures Sum(Step(db, e).colorings, LiveOn(Step(db, e), e.spends, asset))
         == Sum(db.colorings, LiveOn(db, e.spends, asset))
  {
    var added := BeginColorings(db, e.inputs, e.changes);
    forall c | c in added && c.Incoming()
      ensures c.txo !in e.spends
    {
      BeginMember(db, e, c);
    }
    LiveSumExtends(db, Step(db, e), added, e.spends, asset);
  }

  /** The new batch declares what it was prepared with. */
  lemma BeginAccount(db: Db, e: Event, asset: AssetId)
    requires db.Valid() && e.Begin? && WalletAllows(db, e)
    ensures Declared(Step(db, e), |db.batches|, asset) == Sum(e.inputs, AmountOf(asset))
    ensures Held(Step(db, e), |db.batches|, asset) == Sum(db.colorings, LiveOn(db, e.spends, asset))
  {
    BeginOwnSum(db, e, asset);
    BeginLiveSum(db, e, asset);
  }

  lemma BeginKeepsAccount(db: Db, e: Event, x: nat, asset: AssetId)
    requires Inv(db) && e.Begin? && WalletAllows(db, e) && Unshared(db, e)
    requires x < |db.batches| && db.batches[x].Live()
    ensures SameAccount(db, Step(db, e), x, asset)
  {
    var added := BeginColorings(db, e.inputs, e.changes);
    assert db.batches[x] in db.batches;
    forall c | c in added
      ensures c.batch == |db.batches| && (c.Incoming() ==> c.txo !in db.batches[x].spends)
    {
      BeginMember(db, e, c);
    }
    ExtensionKeepsAccount(db, Step(db, e), added, x, asset);
  }

  lemma BeginKeepsClaimedOnce(db: Db, e: Event)
    requires Inv(db) && e.Begin? && WalletAllows(db, e) && Unshared(db, e)
    ensures ClaimedOnce(Step(db, e))
  {
    var db', k := Step(db, e), |db.batches|;
    forall c, x | c in db'.colorings && Worth(db', c) && 0 <= x < |db'.batches| && db'.batches[x].Live()
                  && c.txo in db'.batches[x].spends
      ensures c in db.colorings && Worth(db, c) && (x == k ==> db.StatusOf(c.batch).Settled? && Unclaimed(db, c.txo))
    {
      if x < k {
        assert db.batches[x] in db.batches;
      }
      if c !in db.colorings {
        BeginMember(db, e, c);
      } else if x == k {
        SpendableInput(db, c.txo);
      }
    }
  }

  lemma BeginKeepsHosts(db: Db, e: Event)
    requires PlacedInv(db) && e.Begin? && WalletAllows(db, e)
    ensures WellHosted(Step(db, e))
  {
    var db', k := Step(db, e), |db.batches|;
    forall c | c in db'.colorings && c !in db.colorings && c.Incoming()
      ensures c.batch == k && c.txo < |db'.txos| && !db'.txos[c.txo].pendingWitness
      ensures db'.txos[c.txo].exists_ || c.txo in db'.batches[k].creates
    {
      BeginMember(db, e, c);
      assert forall i | 0 <= i < |e.newTxos| :: e.newTxos[i] in e.newTxos;
    }
  }

  lemma BeginKeepsShape(db: Db, e: Event)
    requires PlacedInv(db) && e.Begin? && WalletAllows(db, e)
    ensures Shaped(Step(db, e)) && SpentInputs(Step(db, e))
  {
    var db', k := Step(db, e), |db.batches|;
    forall c | c in db'.colorings && c !in db.colorings
      ensures c.batch == k && c.txo < |db'.txos| && (!c.Incoming() ==> c.txo in e.spends)
    {
      BeginMember(db, e, c);
    }
    forall b, t | b in db'.batches && (t in b.spends || t in b.creates)
      ensures t < |db'.txos|
    {
      assert b in db.batches || b == db'.batches[k];
    }
  }

  lemma BeginKeepsInvoices(db: Db, e: Event)
    requires Inv(db) && e.Begin? && WalletAllows(db, e)
    ensures InvoicesFree(Step(db, e))
  {
    forall b | 0 <= b < |db.batches| && Open(db.batches[b])
      ensures db.batches[b].blinded.value !in e.spends
    {
      var t := db.batches[b].blinded.value;
      if t in e.spends {
        SpendableInput(db, t);
      }
    }
  }

  // ---------------------------------------------------------------- runs

  /** Every step keeps everything where it may sit, also one that shares an output. */
  lemma StepKeepsPlaced(db: Db, e: Event)
    requires PlacedInv(db) && WalletAllows(db, e)
    ensures PlacedInv(Step(db, e))
  {
    match e
    case Discover(found) => DiscoverKeepsPlaced(db, found);
    case Begin(_, _, _, _) =>
      BeginKeepsShape(db, e);
      BeginKeepsHosts(db, e);
    case End(b) => MoveKeepsPlaced(db, b, WaitingCounterparty);
    case Broadcast(b) =>
      BroadcastKeepsShape(db, b);
      BroadcastKeepsHosts(db, b);
    case Settle(b) => MoveKeepsPlaced(db, b, Settled);
    case Fail(b) => MoveKeepsPlaced(db, b, Failed);
    case IssueAsset(issues) => IssueKeepsPlaced(db, issues);
    case Invoice(t) => InvoiceKeepsPlaced(db, t);
    case Validate(b, receives, s) => ValidateKeepsPlaced(db, b, receives, s);
    case Advance(b, s) => MoveKeepsPlaced(db, b, s);
  }

  lemma StepKeepsClaims(db: Db, e: Event)
    requires Inv(db) && WalletAllows(db, e) && Unshared(db, e)
    ensures ClaimsInv(Step(db, e))
  {
    match e
    case Discover(found) => DiscoverKeepsClaimsInv(db, found);
    case Begin(_, _, _, _) =>
      BeginKeepsClaimedOnce(db, e);
      BeginKeepsInvoices(db, e);
    case End(b) => MoveKeepsClaimsInv(db, b, WaitingCounterparty);
    case Broadcast(b) => BroadcastKeepsClaimsInv(db, b);
    case Settle(b) => MoveKeepsClaimsInv(db, b, Settled);
    case Fail(b) => MoveKeepsClaimsInv(db, b, Failed);
    case IssueAsset(issues) => IssueKeepsClaimsInv(db, issues);
    case Invoice(t) => InvoiceKeepsClaimsInv(db, t);
    case Validate(b, receives, s) => ValidateKeepsClaimsInv(db, b, receives, s);
    case Advance(b, s) => MoveKeepsClaimsInv(db, b, s);
  }

  /** No step changes what a batch that stays live declares, nor what the outputs it spends hold. */
  lemma StepKeepsAccount(db: Db, e: Event, x: nat, asset: AssetId)
    requires Inv(db) && WalletAllows(db, e) && Unshared(db, e)
    requires x < |db.batches| && Step(db, e).batches[x].Live()
    ensures db.batches[x].Live() && SameAccount(db, Step(db, e), x, asset)
  {
    match e
    case Discover(found) =>
      DiscoverPlaces(db, found);
      PlacementKeepsAccount(db, Step(db, e), [], x, asset);
    case Begin(_, _, _, _) => BeginKeepsAccount(db, e, x, asset);
    case End(b) => MoveKeepsAccount(db, b, WaitingCounterparty, x, asset);
    case Broadcast(b) => BroadcastKeepsAccount(db, b, x, asset);
    case Settle(b) => MoveKeepsAccount(db, b, Settled, x, asset);
    case Fail(b) => MoveKeepsAccount(db, b, Failed, x, asset);
    case IssueAsset(issues) =>
      IssuePlaces(db, issues);
      PlacementKeepsAccount(db, Step(db, e), Tag(issues, |db.batches|), x, asset);
    case Invoice(t) =>
      InvoicePlaces(db, t);
      PlacementKeepsAccount(db, Step(db, e), [], x, asset);
    case Validate(b, receives, s) =>
      ValidatePlaces(db, b, receives, s);
      PlacementKeepsAccount(db, Step(db, e), Tag(receives, b), x, asset);
    case Advance(b, s) => MoveKeepsAccount(db, b, s, x, asset);
  }

  /** Only a begun batch is newly live. */
  lemma NewlyLive(db: Db, e: Event)
    requires WalletAllows(db, e)
    ensures |db.batches| <= |Step(db, e).batches|
    ensures forall x | |db.batches| <= x < |Step(db, e).batches| && Step(db, e).batches[x].Live() ::
      e.Begin? && x == |db.batches|
  {
  }

  /** Every step keeps the invariant, as long as no output claimed bare by a pending batch is used again. */
  lemma StepKeepsInv(db: Db, e: Event)
    requires Inv(db) && WalletAllows(db, e) && Unshared(db, e)
    ensures Inv(Step(db, e))
  {
    var db' := Step(db, e);
    StepKeepsPlaced(db, e);
    StepKeepsClaims(db, e);
    NewlyLive(db, e);
    forall x, asset | 0 <= x < |db'.batches| && db'.batches[x].Live()
      ensures Declared(db', x, asset) <= Held(db', x, asset)
    {
      if x < |db.batches| {
        StepKeepsAccount(db, e, x, asset);
      } else {
        BeginAccount(db, e, asset);
      }
    }
  }

  /** The events of a run are each allowed where they happen. */
  ghost predicate Runs(db: Db, events: seq<Event>)
    decreases |events|, 0
  {
    events != [] ==>
      Runs(db, events[..|events| - 1]) && WalletAllows(After(db, events[..|events| - 1]), events[|events| - 1])
  }

  ghost function After(db: Db, events: seq<Event>): Db
    requires Runs(db, events)
    decreases |events|, 1
  {
    if events == [] then db else Step(After(db, events[..|events| - 1]), events[|events| - 1])
  }

  /** No step of the run shares an output. */
  ghost predicate UnsharedRun(db: Db, events: seq<Event>)
    requires Runs(db, events)
    decreases |events|
  {
    events != [] ==>
      UnsharedRun(db, events[..|events| - 1])
      && Unshared(After(db, events[..|events| - 1]), events[|events| - 1])
  }

  lemma RunsOneMore(db: Db, events: seq<Event>, e: Event)
    requires Runs(db, events) && WalletAllows(After(db, events), e)
    ensures Runs(db, events + [e]) && After(db, events + [e]) == Step(After(db, events), e)
  {
    assert (events + [e])[..|events|] == events;
  }

  lemma RunsTwo(db: Db, e: Event, f: Event, s: Db)
    requires WalletAllows(db, e) && Step(db, e) == s && WalletAllows(s, f)
    ensures Runs(db, [e, f]) && After(db, [e, f]) == Step(s, f)
  {
    RunsOneMore(db, [], e);
    assert [] + [e] == [e];
    RunsOneMore(db, [e], f);
    assert [e] + [f] == [e, f];
  }

  lemma RunsThree(db: Db, e: Event, f: Event, g: Event, s: Db, t: Db)
    requires WalletAllows(db, e) && Step(db, e) == s && WalletAllows(s, f) && Step(s, f) == t && WalletAllows(t, g)
    ensures Runs(db, [e, f, g]) && After(db, [e, f, g]) == Step(t, g)
  {
    RunsTwo(db, e, f, s);
    RunsOneMore(db, [e, f], g);
    assert [e, f] + [g] == [e, f, g];
  }

  lemma {:induction false} RunsInTurn(db: Db, a: seq<Event>, b: seq<Event>)
    requires Runs(db, a) && Runs(After(db, a), b)
    ensures Runs(db, a + b) && After(db, a + b) == After(After(db, a), b)
    decreases |b|
  {
    if b == [] {
      assert a + b == a;
    } else {
      var k := |b| - 1;
      RunsInTurn(db, a, b[..k]);
      assert (a + b)[..|a + b| - 1] == a + b[..k];
    }
  }

  /** Wherever a run leads, with outputs shared or not, everything sits where it may. */
  lemma {:induction false} RunKeepsPlaced(db: Db, events: seq<Event>)
    requires PlacedInv(db) && Runs(db, events)
    ensures PlacedInv(After(db, events))
  {
    if events != [] {
      RunKeepsPlaced(db, events[..|events| - 1]);
      StepKeepsPlaced(After(db, events[..|events| - 1]), events[|events| - 1]);
    }
  }

  /** A wallet that has seen nothing yet. */
  const NEW_WALLET := Db([], [], [])

  /** In every state that a new wallet reaches everything sits where it may, and is claimed once if nothing is shared. */
  lemma ReachedIsPlaced(events: seq<Event>)
    requires Runs(NEW_WALLET, events)
    ensures PlacedInv(After(NEW_WALLET, events))
    ensures UnsharedRun(NEW_WALLET, events) ==> Inv(After(NEW_WALLET, events))
  {
    RunKeepsPlaced(NEW_WALLET, events);
    if UnsharedRun(NEW_WALLET, events) {
      RunKeepsInv(NEW_WALLET, events);
    }
  }

  lemma {:induction false} RunKeepsInv(db: Db, events: seq<Event>)
    requires Inv(db) && Runs(db, events) && UnsharedRun(db, events)
    ensures Inv(After(db, events))
  {
    if events != [] {
      RunKeepsInv(db, events[..|events| - 1]);
      StepKeepsInv(After(db, events[..|events| - 1]), events[|events| - 1]);
    }
  }

  /** Nor does any such run change the account of a batch while it stays live. */
  lemma {:induction false} RunKeepsAccount(db: Db, events: seq<Event>, x: nat, asset: AssetId)
    requires Inv(db) && Runs(db, events) && UnsharedRun(db, events)
    requires x < |db.batches|
    ensures x < |After(db, events).batches|
    ensures After(db, events).batches[x].Live() ==> db.batches[x].Live() && SameAccount(db, After(db, events), x, asset)
  {
    if events != [] {
      var before, e := After(db, events[..|events| - 1]), events[|events| - 1];
      RunKeepsInv(db, events[..|events| - 1]);
      RunKeepsAccount(db, events[..|events| - 1], x, asset);
      NewlyLive(before, e);
      if Step(before, e).batches[x].Live() {
        StepKeepsAccount(before, e, x, asset);
      }
    }
  }
}
