/** The tables updated in place, row by row, as a change set is written. */
module BdkTables {

  import opened Common
  import opened Assignments
  import opened BdkStore

  class Tables {
    var descriptor: Option<string>
    var changeDescriptor: Option<string>
    var network: Option<string>
    var locked: set<Outpoint>
    var blocks: map<nat, string>
    var txs: map<Txid, TxRow>
    var txouts: map<Outpoint, TxOut>
    var anchors: map<AnchorKey, nat>
    var lastRevealed: map<DescriptorId, nat>

    ghost function Contents(): Store
      reads this
    {
      Store(descriptor, changeDescriptor, network, locked, blocks, txs, txouts, anchors, lastRevealed)
    }

    constructor ()
      ensures Contents() == EMPTY_STORE
    {
      descriptor, changeDescriptor, network := None, None, None;
      locked, blocks, txs, txouts := {}, map[], map[], map[];
      anchors, lastRevealed := map[], map[];
    }

    constructor From(s: Store)
      ensures Contents() == s
    {
      descriptor, changeDescriptor, network := s.descriptor, s.changeDescriptor, s.network;
      locked, blocks, txs, txouts := s.locked, s.blocks, s.txs, s.txouts;
      anchors, lastRevealed := s.anchors, s.lastRevealed;
    }

    /** Write a change set: every part of it is upserted or deleted, key by key. */
    method PersistChangeset(c: ChangeSet)
      modifies this
      ensures Contents() == Persist(old(Contents()), c)
    {
      WriteWallet(c);
      WriteLocks(c);
      WriteBlocks(c.blocks);
      WriteTxs(c);
      WriteTxouts(c.txouts);
      WriteAnchors(c.anchors);
      WriteRevealed(c.lastRevealed);
    }

    /** The single wallet row: an absent column keeps what is stored. */
    method WriteWallet(c: ChangeSet)
      modifies this`descriptor, this`changeDescriptor, this`network
      ensures descriptor == Later(old(descriptor), c.descriptor)
      ensures changeDescriptor == Later(old(changeDescriptor), c.changeDescriptor)
      ensures network == Later(old(network), c.network)
    {
      if c.descriptor.Some? {
        descriptor := c.descriptor;
      }
      if c.changeDescriptor.Some? {
        changeDescriptor := c.changeDescriptor;
      }
      if c.network.Some? {
        network := c.network;
      }
    }

    method WriteLocks(c: ChangeSet)
      modifies this`locked
      ensures locked == PersistLocks(old(locked), c)
    {
      var todo := c.locked.Keys;
      while todo != {}
        invariant todo <= c.locked.Keys
        invariant forall o :: o in locked <==> if o in c.locked && o !in todo then c.locked[o] else o in old(locked)
        decreases todo
      {
        var o :| o in todo;
        locked := if c.locked[o] then locked + {o} else locked - {o};
        todo := todo - {o};
      }
    }

    method WriteBlocks(changes: map<nat, Option<string>>)
      modifies this`blocks
      ensures blocks == PersistBlocks(old(blocks), changes)
    {
      var todo := changes.Keys;
      while todo != {}
        invariant todo <= changes.Keys
        invariant forall h :: h in blocks <==>
          if h in changes && h !in todo then changes[h].Some? else h in old(blocks)
        invariant forall h | h in blocks ::
          blocks[h] == if h in changes && h !in todo then changes[h].value else old(blocks)[h]
        decreases todo
      {
        var h :| h in todo;
        blocks := if changes[h].Some? then blocks[h := changes[h].value] else blocks - {h};
        todo := todo - {h};
      }
    }

    /** Gather each transaction's columns, then write every row once. */
    method WriteTxs(c: ChangeSet)
      modifies this`txs
      ensures txs == PersistTxs(old(txs), c)
    {
      var rows := GatherRows(c);
      var todo := rows.Keys;
      while todo != {}
        invariant todo <= rows.Keys
        invariant txs.Keys == old(txs).Keys + (rows.Keys - todo)
        invariant forall t | t in txs ::
          txs[t] == if t in rows && t !in todo then KeepStored(Row(old(txs), t), rows[t]) else old(txs)[t]
        decreases todo
      {
        var t :| t in todo;
        txs := txs[t := KeepStored(Row(txs, t), rows[t])];
        todo := todo - {t};
      }
      forall t | t in txs
        ensures txs[t] == PersistTxs(old(txs), c)[t]
      {
        if t !in rows {
          UntouchedRow(c, t, old(txs)[t]);
        }
      }
      assert txs.Keys == PersistTxs(old(txs), c).Keys;
    }

    method WriteTxouts(changes: map<Outpoint, TxOut>)
      modifies this`txouts
      ensures txouts == old(txouts) + changes
    {
      var todo := changes.Keys;
      while todo != {}
        invariant todo <= changes.Keys
        invariant txouts.Keys == old(txouts).Keys + (changes.Keys - todo)
        invariant forall o | o in txouts ::
          txouts[o] == if o in changes && o !in todo then changes[o] else old(txouts)[o]
        decreases todo
      {
        var o :| o in todo;
        txouts := txouts[o := changes[o]];
        todo := todo - {o};
      }
    }

    /** Anchors come in ascending order, so a later time overwrites an earlier one. */
    method WriteAnchors(added: set<Anchor>)
      modifies this`anchors
      ensures anchors == old(anchors) + LatestAnchors(added)
    {
      var todo := added;
      while todo != {}
        invariant todo <= added
        invariant forall a, b | a in added - todo && b in todo :: a.time <= b.time
        invariant anchors == old(anchors) + LatestAnchors(added - todo)
        decreases todo
      {
        ghost var least := EarliestExists(todo);
        assert least in todo && forall b | b in todo :: least.time <= b.time;
        var a :| a in todo && forall b | b in todo :: a.time <= b.time;
        ghost var done := added - todo;
        LatestGrows(done, a);
        anchors := anchors[a.key := a.time];
        todo := todo - {a};
        assert added - todo == done + {a};
        OneMoreKey(old(anchors), LatestAnchors(done), a);
      }
      assert added - todo == added;
    }

    /** A revealed index is only ever raised. */
    method WriteRevealed(changes: map<DescriptorId, nat>)
      modifies this`lastRevealed
      ensures lastRevealed == MaxMap(old(lastRevealed), changes)
    {
      var todo := changes.Keys;
      while todo != {}
        invariant todo <= changes.Keys
        invariant lastRevealed.Keys == old(lastRevealed).Keys + (changes.Keys - todo)
        invariant forall d | d in lastRevealed ::
          lastRevealed[d] == if d in changes && d !in todo then MaxMap(old(lastRevealed), changes)[d]
                             else old(lastRevealed)[d]
        decreases todo
      {
        var d :| d in todo;
        if d !in lastRevealed || lastRevealed[d] < changes[d] {
          lastRevealed := lastRevealed[d := changes[d]];
        }
        todo := todo - {d};
      }
    }
  }

  /** The tables of an uncommitted transaction after a change set is written. */
  method Written(s: Store, c: ChangeSet) returns (r: Store)
    ensures r == Persist(s, c)
  {
    var t := new Tables.From(s);
    t.PersistChangeset(c);
    r := Store(t.descriptor, t.changeDescriptor, t.network, t.locked, t.blocks, t.txs, t.txouts, t.anchors,
               t.lastRevealed);
  }

  lemma OneMoreKey(stored: map<AnchorKey, nat>, written: map<AnchorKey, nat>, a: Anchor)
    ensures (stored + written)[a.key := a.time] == stored + written[a.key := a.time]
  {
  }

  lemma UntouchedRow(c: ChangeSet, t: Txid, stored: TxRow)
    requires t !in Touched(c)
    ensures KeepStored(stored, RowOf(c, t)) == stored
  {
    assert t !in c.txs.Keys && t !in c.firstSeen.Keys && t !in c.lastSeen.Keys && t !in c.lastEvicted.Keys;
  }

  function WithTime(r: TxRow, column: TimeColumn, time: nat): TxRow
  {
    match column
    case FirstSeen => r.(firstSeen := Some(time))
    case LastSeen => r.(lastSeen := Some(time))
    case LastEvicted => r.(lastEvicted := Some(time))
  }

  /** Every transaction given with its bytes gets a row. */
  method RowsOfRaw(values: map<Txid, string>) returns (rows: map<Txid, TxRow>)
    ensures rows == RawRows(values)
  {
    rows := map[];
    var todo := values.Keys;
    while todo != {}
      invariant todo <= values.Keys
      invariant rows == map t | t in values && t !in todo :: NO_ROW.(raw := Some(values[t]))
      decreases todo
    {
      var t :| t in todo;
      rows := rows[t := Row(rows, t).(raw := Some(values[t]))];
      todo := todo - {t};
    }
  }

  /** The rows with one timestamp column set from a map, new rows created as needed. */
  function TimedRows(rows: map<Txid, TxRow>, values: map<Txid, nat>, column: TimeColumn): map<Txid, TxRow>
  {
    map t | t in rows.Keys + values.Keys ::
      if t in values then WithTime(Row(rows, t), column, values[t]) else rows[t]
  }

  method SetTimes(rows: map<Txid, TxRow>, values: map<Txid, nat>, column: TimeColumn) returns (r: map<Txid, TxRow>)
    ensures r == TimedRows(rows, values, column)
  {
    r := rows;
    var todo := values.Keys;
    while todo != {}
      invariant todo <= values.Keys
      invariant r.Keys == rows.Keys + (values.Keys - todo)
      invariant forall t | t in r ::
        r[t] == if t in values && t !in todo then WithTime(Row(rows, t), column, values[t]) else rows[t]
      decreases todo
    {
      var t :| t in todo;
      r := r[t := WithTime(Row(r, t), column, values[t])];
      todo := todo - {t};
    }
  }

  /** Give every listed transaction a row, even an empty one. */
  method EnsureRows(rows: map<Txid, TxRow>, needed: set<Txid>) returns (r: map<Txid, TxRow>)
    ensures r.Keys == rows.Keys + needed
    ensures forall t :: Row(r, t) == Row(rows, t)
  {
    r := rows;
    var todo := needed;
    while todo != {}
      invariant todo <= needed && r.Keys == rows.Keys + (needed - todo)
      invariant forall t | t in r :: r[t] == Row(rows, t)
      decreases todo
    {
      var t :| t in todo;
      r := r[t := Row(r, t)];
      todo := todo - {t};
    }
  }

  lemma TimedRow(rows: map<Txid, TxRow>, values: map<Txid, nat>, column: TimeColumn, t: Txid)
    ensures Row(TimedRows(rows, values, column), t)
      == if t in values then WithTime(Row(rows, t), column, values[t]) else Row(rows, t)
  {
  }

  function RawRows(values: map<Txid, string>): map<Txid, TxRow>
  {
    map t | t in values :: NO_ROW.(raw := Some(values[t]))
  }

  function FirstTimed(c: ChangeSet): map<Txid, TxRow>
  {
    TimedRows(RawRows(c.txs), c.firstSeen, FirstSeen)
  }

  function LastTimed(c: ChangeSet): map<Txid, TxRow>
  {
    TimedRows(FirstTimed(c), c.lastSeen, LastSeen)
  }

  lemma RawRow(values: map<Txid, string>, t: Txid)
    ensures Row(RawRows(values), t) == TxRow(Lookup(values, t), None, None, None)
  {
  }

  lemma LastTimedRow(c: ChangeSet, t: Txid)
    ensures Row(LastTimed(c), t) == TxRow(Lookup(c.txs, t), Lookup(c.firstSeen, t), Lookup(c.lastSeen, t), None)
  {
    RawRow(c.txs, t);
    TimedRow(RawRows(c.txs), c.firstSeen, FirstSeen, t);
    TimedRow(FirstTimed(c), c.lastSeen, LastSeen, t);
  }

  function EvictedTimed(c: ChangeSet): map<Txid, TxRow>
  {
    TimedRows(LastTimed(c), c.lastEvicted, LastEvicted)
  }

  lemma EvictedRow(c: ChangeSet, t: Txid)
    ensures Row(EvictedTimed(c), t) == RowOf(c, t)
  {
    LastTimedRow(c, t);
    TimedRow(LastTimed(c), c.lastEvicted, LastEvicted, t);
  }

  lemma EvictedKeys(c: ChangeSet)
    ensures EvictedTimed(c).Keys == c.txs.Keys + c.firstSeen.Keys + c.lastSeen.Keys + c.lastEvicted.Keys
  {
    assert FirstTimed(c).Keys == c.txs.Keys + c.firstSeen.Keys;
    assert LastTimed(c).Keys == FirstTimed(c).Keys + c.lastSeen.Keys;
  }

  /** Gather the columns, one map after the other. */
  method GatherColumns(c: ChangeSet) returns (rows: map<Txid, TxRow>)
    ensures rows == EvictedTimed(c)
  {
    rows := RowsOfRaw(c.txs);
    rows := SetTimes(rows, c.firstSeen, FirstSeen);
    rows := SetTimes(rows, c.lastSeen, LastSeen);
    rows := SetTimes(rows, c.lastEvicted, LastEvicted);
  }

  /** One row per touched transaction, with the columns the change set carries for it. */
  method GatherRows(c: ChangeSet) returns (rows: map<Txid, TxRow>)
    ensures rows.Keys == Touched(c)
    ensures forall t | t in rows :: rows[t] == RowOf(c, t)
  {
    rows := GatherColumns(c);
    ghost var columns := rows;
    // an anchor needs its transaction to have a row
    rows := EnsureRows(rows, set a | a in c.anchors :: a.key.txid);
    EvictedKeys(c);
    forall t | t in rows
      ensures rows[t] == RowOf(c, t)
    {
      assert rows[t] == Row(rows, t) == Row(columns, t);
      EvictedRow(c, t);
    }
  }

  /** A set without an earliest anchor would have none at all. */
  lemma {:induction false} EarliestExists(s: set<Anchor>) returns (a: Anchor)
    requires s != {}
    ensures a in s && forall b | b in s :: a.time <= b.time
  {
    a :| a in s;
    if s != {a} {
      var y := EarliestExists(s - {a});
      forall b | b in s
        ensures (if a.time <= y.time then a else y).time <= b.time
      {
        assert b == a || b in s - {a};
      }
      a := if a.time <= y.time then a else y;
    }
  }

  /** An anchor no earlier than all before it becomes the latest of its key. */
  lemma LatestGrows(done: set<Anchor>, a: Anchor)
    requires forall b | b in done :: b.time <= a.time
    ensures LatestAnchors(done + {a}) == LatestAnchors(done)[a.key := a.time]
  {
    var before, after := LatestAnchors(done), LatestAnchors(done + {a});
    forall k
      ensures k in after <==> k in before[a.key := a.time]
      ensures k in after ==> after[k] == before[a.key := a.time][k]
    {
      if k in after {
        LatestIsMember(done + {a}, k);
        if k == a.key {
          assert a in done + {a};
        } else {
          LatestIsMember(done, k);
        }
      }
    }
  }
}
