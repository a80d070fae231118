/** Rows of transaction outputs, written by a synchronisation and by a validated witness receive. */
module TxoRows {

  import opened Common
  import opened Assignments

  datatype TxoRow = TxoRow(btcAmount: nat, spent: bool, exists_: bool, pendingWitness: bool)

  type Rows = map<Outpoint, TxoRow>

  /** An output of the Bitcoin wallet's colored keychain. */
  datatype LocalOutput = LocalOutput(outpoint: Outpoint, value: nat, spent: bool, script: string)

  datatype Db = Db(rows: Rows, scripts: set<string>)

  // ---------------------------------------------------------------- one row

  /** On conflict only existence and a positive amount are updated, never withdrawn. */
  function Upserted(stored: Option<TxoRow>, r: TxoRow): TxoRow
  {
    if stored.None? then r
    else stored.value.(
      exists_ := stored.value.exists_ || r.exists_,
      btcAmount := if r.btcAmount != 0 then r.btcAmount else stored.value.btcAmount)
  }

  function Stored(rows: Rows, o: Outpoint): Option<TxoRow>
  {
    if o in rows then Some(rows[o]) else None
  }

  function WithTxo(rows: Rows, o: Outpoint, r: TxoRow): Rows
  {
    rows[o := Upserted(Stored(rows, o), r)]
  }

  // ---------------------------------------------------------------- the two writers

  const RECEIVED := TxoRow(0, false, false, true)

  /** A validated witness receive: the output is expected, but not seen yet. */
  function Validate(db: Db, o: Outpoint): Db
  {
    db.(rows := WithTxo(db.rows, o, RECEIVED))
  }

  /** Rows that a synchronisation does not look at again. */
  predicate Known(rows: Rows, includeSpent: bool, o: Outpoint)
  {
    o in rows && rows[o].exists_ && (includeSpent || !rows[o].spent)
  }

  predicate Considered(rows: Rows, includeSpent: bool, u: LocalOutput)
  {
    (includeSpent || !u.spent) && !Known(rows, includeSpent, u.outpoint)
  }

  function RowOf(u: LocalOutput, scripts: set<string>): TxoRow
  {
    TxoRow(u.value, u.spent, true, u.script in scripts)
  }

  /** Write every output that is not known yet; `before` is the database the synchronisation started from. */
  function Synced(before: Db, outputs: seq<LocalOutput>, includeSpent: bool): Db
  {
    if outputs == [] then before
    else
      var k := |outputs| - 1;
      var db := Synced(before, outputs[..k], includeSpent);
      var u := outputs[k];
      if !Considered(before.rows, includeSpent, u) then db
      else Db(WithTxo(db.rows, u.outpoint, RowOf(u, before.scripts)), db.scripts - {u.script} * before.scripts)
  }

  // ---------------------------------------------------------------- confluence

  /** The output at an outpoint, if the wallet lists it. */
  function Listed(outputs: seq<LocalOutput>, o: Outpoint): Option<LocalOutput>
  {
    if outputs == [] then None
    else if outputs[|outputs| - 1].outpoint == o then Some(outputs[|outputs| - 1])
    else Listed(outputs[..|outputs| - 1], o)
  }

  ghost predicate DistinctOutputs(outputs: seq<LocalOutput>)
  {
    forall i, j | 0 <= i < j < |outputs| :: outputs[i].outpoint != outputs[j].outpoint
  }

  lemma {:induction false} NotListedBefore(outputs: seq<LocalOutput>, o: Outpoint)
    ensures Listed(outputs, o).None? <==> forall i | 0 <= i < |outputs| :: outputs[i].outpoint != o
    ensures Listed(outputs, o).Some? ==> Listed(outputs, o).value.outpoint == o
  {
    if outputs != [] {
      NotListedBefore(outputs[..|outputs| - 1], o);
    }
  }

  /** The row a synchronisation leaves at an outpoint. */
  function RowAfterSync(db: Db, outputs: seq<LocalOutput>, includeSpent: bool, o: Outpoint): Option<TxoRow>
  {
    var u := Listed(outputs, o);
    if u.Some? && Considered(db.rows, includeSpent, u.value) then
      Some(Upserted(Stored(db.rows, o), RowOf(u.value, db.scripts)))
    else Stored(db.rows, o)
  }

  lemma {:induction false} SyncedRow(db: Db, outputs: seq<LocalOutput>, includeSpent: bool, o: Outpoint)
    requires DistinctOutputs(outputs)
    ensures Stored(Synced(db, outputs, includeSpent).rows, o) == RowAfterSync(db, outputs, includeSpent, o)
  {
    if outputs != [] {
      var k := |outputs| - 1;
      SyncedRow(db, outputs[..k], includeSpent, o);
      if outputs[k].outpoint == o {
        NotListedBefore(outputs[..k], o);
        assert forall i | 0 <= i < k :: outputs[..k][i].outpoint != o;
      }
    }
  }

  /** Which scripts a synchronisation takes off the pending list depends only on what it considers. */
  lemma {:induction false} SyncedScripts(a: Db, b: Db, outputs: seq<LocalOutput>, includeSpent: bool)
    requires a.scripts == b.scripts
    requires forall u | u in outputs :: Considered(a.rows, includeSpent, u) == Considered(b.rows, includeSpent, u)
    ensures Synced(a, outputs, includeSpent).scripts == Synced(b, outputs, includeSpent).scripts
  {
    if outputs != [] {
      SyncedScripts(a, b, outputs[..|outputs| - 1], includeSpent);
    }
  }

  lemma SameRows(a: Rows, b: Rows)
    requires forall o :: Stored(a, o) == Stored(b, o)
    ensures a == b
  {
    forall o
      ensures o in a <==> o in b
      ensures o in a ==> a[o] == b[o]
    {
      assert Stored(a, o) == Stored(b, o);
    }
  }

  /** The order does not matter for this outpoint. */
  predicate Confluent(db: Db, outputs: seq<LocalOutput>, includeSpent: bool, o: Outpoint)
  {
    var u := Listed(outputs, o);
    o in db.rows || u.None? || (u.value.spent && !includeSpent) || (u.value.script in db.scripts && !u.value.spent)
  }

  lemma ValidatedConsiders(db: Db, includeSpent: bool, o: Outpoint, u: LocalOutput)
    ensures Considered(Validate(db, o).rows, includeSpent, u) == Considered(db.rows, includeSpent, u)
  {
  }

  lemma OtherRowsCommute(db: Db, outputs: seq<LocalOutput>, includeSpent: bool, o: Outpoint, p: Outpoint)
    requires DistinctOutputs(outputs) && p != o
    ensures Stored(Synced(Validate(db, o), outputs, includeSpent).rows, p)
      == Stored(Validate(Synced(db, outputs, includeSpent), o).rows, p)
  {
    SyncedRow(db, outputs, includeSpent, p);
    SyncedRow(Validate(db, o), outputs, includeSpent, p);
  }

  lemma RowCommutesIff(db: Db, outputs: seq<LocalOutput>, includeSpent: bool, o: Outpoint)
    requires DistinctOutputs(outputs)
    ensures Stored(Synced(Validate(db, o), outputs, includeSpent).rows, o)
      == Stored(Validate(Synced(db, outputs, includeSpent), o).rows, o)
      <==> Confluent(db, outputs, includeSpent, o)
  {
    SyncedRow(db, outputs, includeSpent, o);
    SyncedRow(Validate(db, o), outputs, includeSpent, o);
    NotListedBefore(outputs, o);
  }

  /**
   * Validating then synchronising and synchronising then validating leave the same database exactly when
   * the output has a row already, or is not seen by the synchronisation, or is unspent with its script
   * still pending.
   */
  lemma ValidateAndSyncCommuteIff(db: Db, outputs: seq<LocalOutput>, includeSpent: bool, o: Outpoint)
    requires DistinctOutputs(outputs)
    ensures Synced(Validate(db, o), outputs, includeSpent) == Validate(Synced(db, outputs, includeSpent), o)
      <==> Confluent(db, outputs, includeSpent, o)
  {
    var first, second := Synced(Validate(db, o), outputs, includeSpent), Validate(Synced(db, outputs, includeSpent), o);
    forall u | u in outputs
      ensures Considered(Validate(db, o).rows, includeSpent, u) == Considered(db.rows, includeSpent, u)
    {
      ValidatedConsiders(db, includeSpent, o, u);
    }
    SyncedScripts(Validate(db, o), db, outputs, includeSpent);
    RowCommutesIff(db, outputs, includeSpent, o);
    if Confluent(db, outputs, includeSpent, o) {
      forall p
        ensures Stored(first.rows, p) == Stored(second.rows, p)
      {
        if p != o {
          OtherRowsCommute(db, outputs, includeSpent, o, p);
        }
      }
      SameRows(first.rows, second.rows);
    }
  }

  // ---------------------------------------------------------------- what the writers leave, column by column

  /** A row that is there stays spent or pending as it was; existence and a positive amount are taken over. */
  lemma WriteKeeps(rows: Rows, o: Outpoint, r: TxoRow)
    ensures var written := WithTxo(rows, o, r);
      && o in written && (o !in rows ==> written[o] == r)
      && (o in rows ==>
            && written[o].spent == rows[o].spent && written[o].pendingWitness == rows[o].pendingWitness
            && (written[o].exists_ <==> rows[o].exists_ || r.exists_)
            && written[o].btcAmount == if r.btcAmount > 0 then r.btcAmount else rows[o].btcAmount)
      && forall p | p != o :: Stored(written, p) == Stored(rows, p)
  {
  }

  /** A validated receive makes an output expected: not there, not spent, worth nothing yet. Others are as before. */
  lemma ExpectedOutput(db: Db, o: Outpoint)
    ensures var row := Stored(Validate(db, o).rows, o);
      && row.Some? && (o in db.rows ==> row.value == db.rows[o])
      && (o !in db.rows ==>
            !row.value.exists_ && !row.value.spent && row.value.pendingWitness && row.value.btcAmount == 0)
    ensures Validate(db, o).scripts == db.scripts
    ensures forall p | p != o :: Stored(Validate(db, o).rows, p) == Stored(db.rows, p)
  {
  }

  /** The output is passed over: spent ones are not asked for, or its row is known to exist and up to date. */
  predicate PassedOver(db: Db, includeSpent: bool, u: LocalOutput)
  {
    || (u.spent && !includeSpent)
    || (u.outpoint in db.rows && db.rows[u.outpoint].exists_ && (includeSpent || !db.rows[u.outpoint].spent))
  }

  /** What a synchronisation that does not pass the output over makes of its row. */
  predicate Promoted(db: Db, u: LocalOutput, row: TxoRow)
  {
    && row.exists_ && (u.value > 0 ==> row.btcAmount == u.value)
    && (u.outpoint !in db.rows ==>
          && row.spent == u.spent && row.btcAmount == u.value && (row.pendingWitness <==> u.script in db.scripts))
    && (u.outpoint in db.rows ==>
          && row.spent == db.rows[u.outpoint].spent && row.pendingWitness == db.rows[u.outpoint].pendingWitness
          && (u.value == 0 ==> row.btcAmount == db.rows[u.outpoint].btcAmount))
  }

  lemma {:induction false} ListedThere(outputs: seq<LocalOutput>, u: LocalOutput)
    requires DistinctOutputs(outputs) && u in outputs
    ensures Listed(outputs, u.outpoint) == Some(u)
  {
    var k := |outputs| - 1;
    var i :| 0 <= i <= k && outputs[i] == u;
    if i < k {
      assert outputs[..k][i] == u;
      ListedThere(outputs[..k], u);
    }
  }

  /** A synchronisation promotes exactly the listed outputs that it does not pass over. */
  lemma SyncPromotes(db: Db, outputs: seq<LocalOutput>, includeSpent: bool, u: LocalOutput)
    requires DistinctOutputs(outputs) && u in outputs
    ensures var row := Stored(Synced(db, outputs, includeSpent).rows, u.outpoint);
      if PassedOver(db, includeSpent, u) then row == Stored(db.rows, u.outpoint)
      else row.Some? && Promoted(db, u, row.value)
  {
    SyncedRow(db, outputs, includeSpent, u.outpoint);
    ListedThere(outputs, u);
  }

  lemma UnlistedStay(db: Db, outputs: seq<LocalOutput>, includeSpent: bool, o: Outpoint)
    requires DistinctOutputs(outputs) && forall u | u in outputs :: u.outpoint != o
    ensures Stored(Synced(db, outputs, includeSpent).rows, o) == Stored(db.rows, o)
  {
    SyncedRow(db, outputs, includeSpent, o);
    NotListedBefore(outputs, o);
  }

  /** A script is taken off the pending list if and only if an output with it is promoted. */
  lemma {:induction false} ScriptsTaken(db: Db, outputs: seq<LocalOutput>, includeSpent: bool, script: string)
    ensures script in Synced(db, outputs, includeSpent).scripts <==>
      script in db.scripts && forall u | u in outputs && u.script == script :: PassedOver(db, includeSpent, u)
  {
    if outputs != [] {
      var k := |outputs| - 1;
      ScriptsTaken(db, outputs[..k], includeSpent, script);
      assert outputs == outputs[..k] + [outputs[k]];
    }
  }

  // ---------------------------------------------------------------- monotone rows

  /** Nothing seen is forgotten: existence stays, and a positive amount stays positive. */
  predicate Follows(a: TxoRow, b: TxoRow)
  {
    (a.exists_ ==> b.exists_) && (a.btcAmount > 0 ==> b.btcAmount > 0)
  }

  ghost predicate RowsFollow(a: Rows, b: Rows)
  {
    forall o | o in a :: o in b && Follows(a[o], b[o])
  }

  datatype Event =
    | SetTxo(outpoint: Outpoint, row: TxoRow)
    | ValidateReceive(outpoint: Outpoint)
    | Sync(outputs: seq<LocalOutput>, includeSpent: bool)
    | MarkSpent(outpoint: Outpoint)
    | WitnessConfirmed(outpoint: Outpoint)

  function Step(db: Db, e: Event): Db
  {
    match e
    case SetTxo(o, r) => db.(rows := WithTxo(db.rows, o, r))
    case ValidateReceive(o) => Validate(db, o)
    case Sync(outputs, includeSpent) => Synced(db, outputs, includeSpent)
    case MarkSpent(o) => if o in db.rows then db.(rows := db.rows[o := db.rows[o].(spent := true)]) else db
    case WitnessConfirmed(o) =>
      if o in db.rows then db.(rows := db.rows[o := db.rows[o].(pendingWitness := false)]) else db
  }

  lemma {:induction false} SyncFollows(db: Db, outputs: seq<LocalOutput>, includeSpent: bool)
    ensures RowsFollow(db.rows, Synced(db, outputs, includeSpent).rows)
  {
    if outputs != [] {
      SyncFollows(db, outputs[..|outputs| - 1], includeSpent);
    }
  }

  function After(db: Db, events: seq<Event>): Db
  {
    if events == [] then db else Step(After(db, events[..|events| - 1]), events[|events| - 1])
  }

  /** Over any sequence of writes, existence never reverts and a positive amount is never replaced by zero. */
  lemma {:induction false} RowsNeverForget(db: Db, events: seq<Event>)
    ensures RowsFollow(db.rows, After(db, events).rows)
  {
    if events != [] {
      var middle := After(db, events[..|events| - 1]);
      RowsNeverForget(db, events[..|events| - 1]);
      var e := events[|events| - 1];
      if e.Sync? {
        SyncFollows(middle, e.outputs, e.includeSpent);
      }
      assert RowsFollow(middle.rows, Step(middle, e).rows);
    }
  }

  // ---------------------------------------------------------------- the code

  class TxoTable {
    var rows: Rows
    var scripts: set<string>

    ghost function Contents(): Db
      reads this
    {
      Db(rows, scripts)
    }

    constructor ()
      ensures Contents() == Db(map[], {})
    {
      rows, scripts := map[], {};
    }

    /** Insert, or update the columns that carry news. */
    method Upsert(o: Outpoint, r: TxoRow)
      modifies this`rows
      ensures rows == WithTxo(old(rows), o, r)
    {
      if o !in rows {
        rows := rows[o := r];
        return;
      }
      var stored := rows[o];
      if r.exists_ {
        rows := rows[o := rows[o].(exists_ := true)];
      }
      if r.btcAmount != 0 {
        rows := rows[o := rows[o].(btcAmount := r.btcAmount)];
      }
    }

    method SaveReceived(o: Outpoint)
      modifies this`rows
      ensures Contents() == Validate(old(Contents()), o)
    {
      Upsert(o, RECEIVED);
    }

    /** Promote the outputs the Bitcoin wallet has found. */
    method UpdateFromBdk(outputs: seq<LocalOutput>, includeSpent: bool)
      modifies this
      ensures Contents() == Synced(old(Contents()), outputs, includeSpent)
    {
      var known := set o | o in rows && rows[o].exists_ && (includeSpent || !rows[o].spent);
      var pending := scripts;
      for i := 0 to |outputs|
        invariant Contents() == Synced(old(Contents()), outputs[..i], includeSpent)
      {
        var u := outputs[i];
        assert outputs[..i + 1][..i] == outputs[..i];
        if (!includeSpent && u.spent) || u.outpoint in known {
          continue;
        }
        var row := TxoRow(u.value, u.spent, true, false);
        if pending != {} {
          if u.script in pending {
            row := row.(pendingWitness := true);
            scripts := scripts - {u.script};
          }
        }
        Upsert(u.outpoint, row);
      }
      assert outputs[..|outputs|] == outputs;
    }
  }
}
