/** The wallet's transfer tables updated in place, each operation proved to be a step of its runs. */
module WalletTables {

  import opened Common
  import opened Assignments
  import opened Selection
  import opened Balances
  import opened WalletRuns

  class Tables {
    var txos: seq<Txo>
    var batches: seq<Batch>
    var colorings: seq<Coloring>

    ghost function Contents(): Db
      reads this
    {
      Db(txos, batches, colorings)
    }

    constructor ()
      ensures Contents() == Db([], [], []) && Inv(Contents())
    {
      txos, batches, colorings := [], [], [];
    }

    /** One coloring row per assignment. */
    method SetColorings(entries: seq<Entry>, b: nat)
      modifies this`colorings
      ensures colorings == old(colorings) + Tag(entries, b)
    {
      for i := 0 to |entries|
        invariant colorings == old(colorings) + Tag(entries[..i], b)
      {
        var e := entries[i];
        colorings := colorings + [Coloring(e.txo, b, e.asset, e.kind, e.assignment)];
        assert Tag(entries[..i + 1], b) == Tag(entries[..i], b) + [Coloring(e.txo, b, e.asset, e.kind, e.assignment)];
      }
      assert entries[..|entries|] == entries;
    }

    /** Save a prepared batch: its change outputs, its row, what it takes and what it leaves. */
    method SaveTransfers(spends: set<nat>, newTxos: seq<Txo>, inputs: seq<Entry>, changes: seq<Entry>) returns (b: nat)
      requires WalletAllows(Contents(), Begin(spends, newTxos, inputs, changes))
      modifies this
      ensures Contents() == Step(old(Contents()), Begin(spends, newTxos, inputs, changes))
      ensures b == |old(batches)|
    {
      b := |batches|;
      var created := Indices(|txos|, |newTxos|);
      txos := txos + newTxos;
      batches := batches + [Batch(Initiated, false, spends, created, None, None)];
      SetColorings(inputs, b);
      SetColorings(changes, b);
      assert colorings == old(colorings) + (Tag(inputs, b) + Tag(changes, b));
    }

    method SetStatus(b: nat, status: TransferStatus)
      requires b < |batches|
      modifies this`batches
      ensures Contents() == WithStatus(old(Contents()), b, status)
    {
      batches := batches[b := batches[b].(status := status)];
    }

    /** The broadcast transaction's outputs become known. */
    method PromoteOutputs(creates: set<nat>)
      modifies this`txos
      ensures txos == MarkTxos(old(txos), {}, creates)
    {
      for t := 0 to |txos|
        invariant |txos| == |old(txos)|
        invariant forall u | 0 <= u < |txos| ::
          txos[u] == if u < t then old(txos)[u].(exists_ := old(txos)[u].exists_ || u in creates) else old(txos)[u]
      {
        if t in creates {
          txos := txos[t := txos[t].(exists_ := true)];
        }
      }
    }

    /** Every input that has a row is marked spent. */
    method MarkSpent(inputs: set<nat>)
      modifies this`txos
      ensures txos == MarkTxos(old(txos), inputs, {})
    {
      var todo := inputs;
      while todo != {}
        invariant todo <= inputs && |txos| == |old(txos)|
        invariant forall u | 0 <= u < |txos| ::
          txos[u] == old(txos)[u].(spent := old(txos)[u].spent || (u in inputs && u !in todo))
        decreases todo
      {
        var t :| t in todo;
        if t < |txos| {
          txos := txos[t := txos[t].(spent := true)];
        }
        todo := todo - {t};
      }
    }

    /** Broadcast: outputs promoted, inputs marked, status moved on. */
    method BroadcastPsbt(b: nat)
      requires WalletAllows(Contents(), Broadcast(b))
      modifies this
      ensures Contents() == Step(old(Contents()), Broadcast(b))
    {
      PromoteOutputs(batches[b].creates);
      MarkSpent(batches[b].spends);
      SetStatus(b, WaitingConfirmations);
      assert txos == MarkTxos(old(txos), old(batches)[b].spends, old(batches)[b].creates);
    }

    /** A saved batch that was only initiated now waits for its recipients. */
    method SendEnd(b: nat)
      requires WalletAllows(Contents(), End(b))
      modifies this
      ensures Contents() == Step(old(Contents()), End(b))
    {
      SetStatus(b, WaitingCounterparty);
    }

    method SettleBatch(b: nat)
      requires WalletAllows(Contents(), Settle(b))
      modifies this
      ensures Contents() == Step(old(Contents()), Settle(b))
    {
      SetStatus(b, Settled);
    }

    method FailBatch(b: nat)
      requires WalletAllows(Contents(), Fail(b))
      modifies this
      ensures Contents() == Step(old(Contents()), Fail(b))
    {
      SetStatus(b, Failed);
    }

    /** An issued asset's allocations, settled at once. */
    method ImportContract(issues: seq<Entry>) returns (b: nat)
      requires WalletAllows(Contents(), IssueAsset(issues))
      modifies this
      ensures Contents() == Step(old(Contents()), IssueAsset(issues))
    {
      b := |batches|;
      batches := batches + [Batch(Settled, true, {}, {}, None, None)];
      SetColorings(issues, b);
    }

    /** A valid consignment's allocations, on the output the invoice named. */
    method SaveReceived(b: nat, receives: seq<Entry>, status: TransferStatus)
      requires WalletAllows(Contents(), Validate(b, receives, status))
      modifies this
      ensures Contents() == Step(old(Contents()), Validate(b, receives, status))
    {
      SetColorings(receives, b);
      SetStatus(b, status);
    }
  }

  /** A whole outgoing transfer: from preparation to settlement the invariant of the wallet is kept. */
  method Transfer(t: Tables, spends: set<nat>, newTxos: seq<Txo>, inputs: seq<Entry>, changes: seq<Entry>) returns (b: nat)
    requires Inv(t.Contents()) && WalletAllows(t.Contents(), Begin(spends, newTxos, inputs, changes))
    requires Unshared(t.Contents(), Begin(spends, newTxos, inputs, changes))
    modifies t
    ensures Inv(t.Contents()) && b == |old(t.batches)| < |t.batches| && t.batches[b].status.Settled?
    ensures t.colorings == old(t.colorings) + (Tag(inputs, b) + Tag(changes, b))
  {
    StepKeepsInv(t.Contents(), Begin(spends, newTxos, inputs, changes));
    b := t.SaveTransfers(spends, newTxos, inputs, changes);
    StepKeepsInv(t.Contents(), End(b));
    t.SendEnd(b);
    StepKeepsInv(t.Contents(), Broadcast(b));
    t.BroadcastPsbt(b);
    StepKeepsInv(t.Contents(), Settle(b));
    t.SettleBatch(b);
  }
}
