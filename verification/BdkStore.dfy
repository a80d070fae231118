/** The Bitcoin wallet's change sets and the tables they are persisted in. */
module BdkStore {

  import opened Common
  import opened Assignments

  type Txid = string
  type DescriptorId = string

  datatype TxOut = TxOut(value: nat, script: string)

  datatype AnchorKey = AnchorKey(txid: Txid, height: nat, hash: string)

  /** A transaction seen in a block, with the block's time. */
  datatype Anchor = Anchor(key: AnchorKey, time: nat)

  /** What the Bitcoin wallet stages: a delta to be merged into earlier ones. */
  datatype ChangeSet = ChangeSet(
    descriptor: Option<string>, changeDescriptor: Option<string>, network: Option<string>,
    locked: map<Outpoint, bool>, blocks: map<nat, Option<string>>,
    txs: map<Txid, string>, firstSeen: map<Txid, nat>, lastSeen: map<Txid, nat>, lastEvicted: map<Txid, nat>,
    txouts: map<Outpoint, TxOut>, anchors: set<Anchor>, lastRevealed: map<DescriptorId, nat>)

  const NO_CHANGES := ChangeSet(None, None, None, map[], map[], map[], map[], map[], map[], map[], {}, map[])

  datatype TxRow = TxRow(raw: Option<string>, firstSeen: Option<nat>, lastSeen: Option<nat>, lastEvicted: Option<nat>)

  const NO_ROW := TxRow(None, None, None, None)

  /** The tables. */
  datatype Store = Store(
    descriptor: Option<string>, changeDescriptor: Option<string>, network: Option<string>,
    locked: set<Outpoint>, blocks: map<nat, string>, txs: map<Txid, TxRow>,
    txouts: map<Outpoint, TxOut>, anchors: map<AnchorKey, nat>, lastRevealed: map<DescriptorId, nat>)

  const EMPTY_STORE := Store(None, None, None, {}, map[], map[], map[], map[], map[])

  // ---------------------------------------------------------------- merging change sets

  function Later<T>(a: Option<T>, b: Option<T>): Option<T>
  {
    if b.Some? then b else a
  }

  function MaxMap<K>(a: map<K, nat>, b: map<K, nat>): map<K, nat>
  {
    map k | k in a.Keys + b.Keys ::
      if k !in a then b[k] else if k !in b then a[k] else if a[k] < b[k] then b[k] else a[k]
  }

  function MinMap<K>(a: map<K, nat>, b: map<K, nat>): map<K, nat>
  {
    map k | k in a.Keys + b.Keys ::
      if k !in a then b[k] else if k !in b then a[k] else if b[k] < a[k] then b[k] else a[k]
  }

  /** Merge of the Bitcoin library: later values win, timestamps and revealed indices keep their extreme. */
  function Merge(a: ChangeSet, b: ChangeSet): ChangeSet
  {
    ChangeSet(
      Later(a.descriptor, b.descriptor), Later(a.changeDescriptor, b.changeDescriptor), Later(a.network, b.network),
      a.locked + b.locked, a.blocks + b.blocks, a.txs + b.txs,
      MinMap(a.firstSeen, b.firstSeen), MaxMap(a.lastSeen, b.lastSeen), MaxMap(a.lastEvicted, b.lastEvicted),
      a.txouts + b.txouts, a.anchors + b.anchors, MaxMap(a.lastRevealed, b.lastRevealed))
  }

  // ---------------------------------------------------------------- persisting a change set

  function Lookup<K, V>(m: map<K, V>, k: K): Option<V>
  {
    if k in m then Some(m[k]) else None
  }

  /** The columns a change set carries for one transaction. */
  function RowOf(c: ChangeSet, t: Txid): TxRow
  {
    TxRow(Lookup(c.txs, t), Lookup(c.firstSeen, t), Lookup(c.lastSeen, t), Lookup(c.lastEvicted, t))
  }

  /** Upsert of a transaction row: an absent column keeps what is stored. */
  function KeepStored(stored: TxRow, incoming: TxRow): TxRow
  {
    TxRow(Later(stored.raw, incoming.raw), Later(stored.firstSeen, incoming.firstSeen),
          Later(stored.lastSeen, incoming.lastSeen), Later(stored.lastEvicted, incoming.lastEvicted))
  }

  function Row(txs: map<Txid, TxRow>, t: Txid): TxRow
  {
    if t in txs then txs[t] else NO_ROW
  }

  /** Transactions that get a row: those with a column, and those an anchor refers to. */
  function Touched(c: ChangeSet): set<Txid>
  {
    c.txs.Keys + c.firstSeen.Keys + c.lastSeen.Keys + c.lastEvicted.Keys + (set a | a in c.anchors :: a.key.txid)
  }

  ghost function TimesOf(anchors: set<Anchor>, k: AnchorKey): set<nat>
  {
    set a | a in anchors && a.key == k :: a.time
  }

  ghost function Maximum(s: set<nat>): (m: nat)
    requires s != {}
    ensures m in s && forall x | x in s :: x <= m
  {
    var x :| x in s;
    if s == {x} then x
    else
      var m := Maximum(s - {x});
      assert s == (s - {x}) + {x};
      if m < x then x else m
  }

  function AnchorKeys(anchors: set<Anchor>): set<AnchorKey>
  {
    set a | a in anchors :: a.key
  }

  /** Anchors are written in ascending order, so the latest time of each remains. */
  ghost function LatestAnchors(anchors: set<Anchor>): map<AnchorKey, nat>
  {
    map k | k in AnchorKeys(anchors) :: Latest(anchors, k)
  }

  ghost function Latest(anchors: set<Anchor>, k: AnchorKey): nat
    requires k in AnchorKeys(anchors)
  {
    var a :| a in anchors && a.key == k;
    assert a.time in TimesOf(anchors, k);
    Maximum(TimesOf(anchors, k))
  }

  function Locks(c: ChangeSet, value: bool): set<Outpoint>
  {
    set o | o in c.locked && c.locked[o] == value
  }

  function PersistLocks(locked: set<Outpoint>, c: ChangeSet): set<Outpoint>
  {
    locked - Locks(c, false) + Locks(c, true)
  }

  function PersistBlocks(blocks: map<nat, string>, changes: map<nat, Option<string>>): map<nat, string>
  {
    map h | h in blocks.Keys + changes.Keys && (h in changes ==> changes[h].Some?) ::
      if h in changes then changes[h].value else blocks[h]
  }

  function PersistTxs(txs: map<Txid, TxRow>, c: ChangeSet): map<Txid, TxRow>
  {
    map t | t in txs.Keys + Touched(c) :: KeepStored(Row(txs, t), RowOf(c, t))
  }

  ghost function Persist(s: Store, c: ChangeSet): Store
  {
    Store(
      Later(s.descriptor, c.descriptor), Later(s.changeDescriptor, c.changeDescriptor), Later(s.network, c.network),
      PersistLocks(s.locked, c), PersistBlocks(s.blocks, c.blocks), PersistTxs(s.txs, c),
      s.txouts + c.txouts, s.anchors + LatestAnchors(c.anchors), MaxMap(s.lastRevealed, c.lastRevealed))
  }

  // ---------------------------------------------------------------- algebra

  /** m says something about everything that p says something about. */
  ghost predicate Extends(p: ChangeSet, m: ChangeSet)
  {
    && (p.descriptor.Some? ==> m.descriptor.Some?)
    && (p.changeDescriptor.Some? ==> m.changeDescriptor.Some?)
    && (p.network.Some? ==> m.network.Some?)
    && p.locked.Keys <= m.locked.Keys && p.blocks.Keys <= m.blocks.Keys
    && p.txs.Keys <= m.txs.Keys && p.firstSeen.Keys <= m.firstSeen.Keys
    && p.lastSeen.Keys <= m.lastSeen.Keys && p.lastEvicted.Keys <= m.lastEvicted.Keys
    && p.txouts.Keys <= m.txouts.Keys && p.anchors <= m.anchors
    && (forall d | d in p.lastRevealed :: d in m.lastRevealed && p.lastRevealed[d] <= m.lastRevealed[d])
  }

  lemma MergeExtends(p: ChangeSet, d: ChangeSet)
    ensures Extends(p, Merge(p, d))
  {
  }

  lemma LocksAbsorb(locked: set<Outpoint>, p: ChangeSet, m: ChangeSet)
    requires p.locked.Keys <= m.locked.Keys
    ensures PersistLocks(PersistLocks(locked, p), m) == PersistLocks(locked, m)
  {
    forall o | o in Locks(p, true) + Locks(p, false)
      ensures o in Locks(m, true) + Locks(m, false)
    {
      assert o in p.locked.Keys;
    }
  }

  lemma BlocksAbsorb(blocks: map<nat, string>, p: map<nat, Option<string>>, m: map<nat, Option<string>>)
    requires p.Keys <= m.Keys
    ensures PersistBlocks(PersistBlocks(blocks, p), m) == PersistBlocks(blocks, m)
  {
    var twice, once := PersistBlocks(PersistBlocks(blocks, p), m), PersistBlocks(blocks, m);
    forall h
      ensures h in twice <==> h in once
    {
      assert h in p ==> h in m;
    }
  }

  lemma RowAbsorbs(stored: TxRow, p: ChangeSet, m: ChangeSet, t: Txid)
    requires Extends(p, m)
    ensures KeepStored(KeepStored(stored, RowOf(p, t)), RowOf(m, t)) == KeepStored(stored, RowOf(m, t))
  {
    assert t in p.txs.Keys ==> t in m.txs.Keys;
    assert t in p.firstSeen.Keys ==> t in m.firstSeen.Keys;
    assert t in p.lastSeen.Keys ==> t in m.lastSeen.Keys;
    assert t in p.lastEvicted.Keys ==> t in m.lastEvicted.Keys;
  }

  lemma TxsAbsorb(txs: map<Txid, TxRow>, p: ChangeSet, m: ChangeSet)
    requires Extends(p, m)
    ensures PersistTxs(PersistTxs(txs, p), m) == PersistTxs(txs, m)
  {
    var twice, once := PersistTxs(PersistTxs(txs, p), m), PersistTxs(txs, m);
    assert twice.Keys == once.Keys by {
      TouchedGrows(p, m);
    }
    forall t | t in once
      ensures twice[t] == once[t]
    {
      RowAfter(txs, p, t);
      RowAfter(PersistTxs(txs, p), m, t);
      RowAfter(txs, m, t);
      RowAbsorbs(Row(txs, t), p, m, t);
    }
  }

  lemma TouchedGrows(p: ChangeSet, m: ChangeSet)
    requires Extends(p, m)
    ensures Touched(p) <= Touched(m)
  {
  }

  lemma OverlayAbsorbs<K, V>(stored: map<K, V>, p: map<K, V>, m: map<K, V>)
    requires p.Keys <= m.Keys
    ensures stored + p + m == stored + m
  {
    assert (stored + p + m).Keys == (stored + m).Keys;
  }

  lemma AnchorsAbsorb(stored: map<AnchorKey, nat>, p: set<Anchor>, m: set<Anchor>)
    requires p <= m
    ensures stored + LatestAnchors(p) + LatestAnchors(m) == stored + LatestAnchors(m)
  {
    assert AnchorKeys(p) <= AnchorKeys(m);
    assert LatestAnchors(p).Keys == AnchorKeys(p) && LatestAnchors(m).Keys == AnchorKeys(m);
    OverlayAbsorbs(stored, LatestAnchors(p), LatestAnchors(m));
  }

  lemma RevealedAbsorb(stored: map<DescriptorId, nat>, p: map<DescriptorId, nat>, m: map<DescriptorId, nat>)
    requires forall d | d in p :: d in m && p[d] <= m[d]
    ensures MaxMap(MaxMap(stored, p), m) == MaxMap(stored, m)
  {
    var twice, once := MaxMap(MaxMap(stored, p), m), MaxMap(stored, m);
    assert twice.Keys == once.Keys;
  }

  lemma ExtensionAbsorbs(s: Store, p: ChangeSet, m: ChangeSet)
    requires Extends(p, m)
    ensures Persist(Persist(s, p), m) == Persist(s, m)
  {
    var twice, once := Persist(Persist(s, p), m), Persist(s, m);
    LocksAbsorb(s.locked, p, m);
    BlocksAbsorb(s.blocks, p.blocks, m.blocks);
    TxsAbsorb(s.txs, p, m);
    OverlayAbsorbs(s.txouts, p.txouts, m.txouts);
    AnchorsAbsorb(s.anchors, p.anchors, m.anchors);
    RevealedAbsorb(s.lastRevealed, p.lastRevealed, m.lastRevealed);
    assert twice.locked == once.locked && twice.blocks == once.blocks && twice.txs == once.txs;
  }

  /** Writing a pending snapshot and then any later one that extends it by merge equals writing only the later. */
  lemma LaterSnapshotAbsorbs(s: Store, p: ChangeSet, d: ChangeSet)
    ensures Persist(Persist(s, p), Merge(p, d)) == Persist(s, Merge(p, d))
  {
    MergeExtends(p, d);
    ExtensionAbsorbs(s, p, Merge(p, d));
  }

  /** Writing the same change set again changes nothing. */
  lemma PersistIdempotent(s: Store, c: ChangeSet)
    ensures Persist(Persist(s, c), c) == Persist(s, c)
  {
    ExtensionAbsorbs(s, c, c);
  }

  // ---------------------------------------------------------------- loading

  function LoadLocks(locked: set<Outpoint>): map<Outpoint, bool>
  {
    map o | o in locked :: true
  }

  function LoadBlocks(blocks: map<nat, string>): map<nat, Option<string>>
  {
    map h | h in blocks :: Some(blocks[h])
  }

  /** The transactions whose bytes are stored. */
  function LoadRaw(txs: map<Txid, TxRow>): map<Txid, string>
  {
    map t | t in txs && txs[t].raw.Some? :: txs[t].raw.value
  }

  datatype TimeColumn = FirstSeen | LastSeen | LastEvicted

  function TimeAt(r: TxRow, column: TimeColumn): Option<nat>
  {
    match column
    case FirstSeen => r.firstSeen
    case LastSeen => r.lastSeen
    case LastEvicted => r.lastEvicted
  }

  function TimesIn(c: ChangeSet, column: TimeColumn): map<Txid, nat>
  {
    match column
    case FirstSeen => c.firstSeen
    case LastSeen => c.lastSeen
    case LastEvicted => c.lastEvicted
  }

  /** The transactions that have the given timestamp. */
  function LoadTimes(txs: map<Txid, TxRow>, column: TimeColumn): map<Txid, nat>
  {
    map t | t in txs && TimeAt(txs[t], column).Some? :: TimeAt(txs[t], column).value
  }

  function LoadAnchors(anchors: map<AnchorKey, nat>): set<Anchor>
  {
    set k | k in anchors :: Anchor(k, anchors[k])
  }

  /** The aggregate change set that the tables describe. */
  function Load(s: Store): ChangeSet
  {
    ChangeSet(
      s.descriptor, s.changeDescriptor, s.network, LoadLocks(s.locked), LoadBlocks(s.blocks),
      LoadRaw(s.txs), LoadTimes(s.txs, FirstSeen), LoadTimes(s.txs, LastSeen), LoadTimes(s.txs, LastEvicted), s.txouts, LoadAnchors(s.anchors), s.lastRevealed)
  }

  /** No removals, no unlocks, and one time per anchor. */
  ghost predicate Additive(c: ChangeSet)
  {
    && (forall o | o in c.locked :: c.locked[o])
    && (forall h | h in c.blocks :: c.blocks[h].Some?)
    && (forall a, b | a in c.anchors && b in c.anchors && a.key == b.key :: a == b)
  }

  lemma LatestIsMember(anchors: set<Anchor>, k: AnchorKey)
    requires k in AnchorKeys(anchors)
    ensures Anchor(k, Latest(anchors, k)) in anchors
    ensures forall a | a in anchors && a.key == k :: a.time <= Latest(anchors, k)
  {
    var a :| a in anchors && a.key == k;
    assert a.time in TimesOf(anchors, k);
    forall b | b in anchors && b.key == k
      ensures b.time <= Latest(anchors, k)
    {
      assert b.time in TimesOf(anchors, k);
    }
  }

  lemma AnchorsRoundTrip(anchors: set<Anchor>)
    ensures LoadAnchors(LatestAnchors(anchors)) == anchors
      <==> forall a, b | a in anchors && b in anchors && a.key == b.key :: a == b
  {
    var latest := LatestAnchors(anchors);
    forall k | k in latest
      ensures Anchor(k, latest[k]) in anchors
    {
      LatestIsMember(anchors, k);
    }
    if forall a, b | a in anchors && b in anchors && a.key == b.key :: a == b {
      forall a | a in anchors
        ensures a in LoadAnchors(latest)
      {
        assert a.key in latest;
        assert a == Anchor(a.key, latest[a.key]);
      }
    }
  }

  /** A row after a write, whether or not the change set touches it. */
  lemma RowAfter(txs: map<Txid, TxRow>, c: ChangeSet, t: Txid)
    ensures Row(PersistTxs(txs, c), t) == KeepStored(Row(txs, t), RowOf(c, t))
  {
    if t !in Touched(c) {
      assert t !in c.txs.Keys && t !in c.firstSeen.Keys && t !in c.lastSeen.Keys && t !in c.lastEvicted.Keys;
    }
  }

  /** Bytes read after a write: the stored ones, overlaid by the new ones. */
  lemma RawOverlays(txs: map<Txid, TxRow>, c: ChangeSet)
    ensures LoadRaw(PersistTxs(txs, c)) == LoadRaw(txs) + c.txs
  {
    var loaded, expected := LoadRaw(PersistTxs(txs, c)), LoadRaw(txs) + c.txs;
    forall t
      ensures Lookup(loaded, t) == Lookup(expected, t)
    {
      RowAfter(txs, c, t);
      assert Lookup(loaded, t) == Row(PersistTxs(txs, c), t).raw;
      assert Lookup(LoadRaw(txs), t) == Row(txs, t).raw;
    }
    SameLookups(loaded, expected);
  }

  lemma TimeAtOverlays(txs: map<Txid, TxRow>, c: ChangeSet, column: TimeColumn, t: Txid)
    ensures TimeAt(Row(PersistTxs(txs, c), t), column)
      == Later(TimeAt(Row(txs, t), column), Lookup(TimesIn(c, column), t))
  {
    RowAfter(txs, c, t);
    assert TimeAt(RowOf(c, t), column) == Lookup(TimesIn(c, column), t);
  }

  lemma LoadedTime(txs: map<Txid, TxRow>, column: TimeColumn, t: Txid)
    ensures Lookup(LoadTimes(txs, column), t) == TimeAt(Row(txs, t), column)
  {
  }

  lemma OverlaidLookup<K, V>(a: map<K, V>, b: map<K, V>, k: K)
    ensures Lookup(a + b, k) == Later(Lookup(a, k), Lookup(b, k))
  {
  }

  lemma TimesOverlay(txs: map<Txid, TxRow>, c: ChangeSet, column: TimeColumn)
    ensures LoadTimes(PersistTxs(txs, c), column) == LoadTimes(txs, column) + TimesIn(c, column)
  {
    var loaded, expected := LoadTimes(PersistTxs(txs, c), column), LoadTimes(txs, column) + TimesIn(c, column);
    forall t
      ensures Lookup(loaded, t) == Lookup(expected, t)
    {
      TimeAtOverlays(txs, c, column, t);
      LoadedTime(PersistTxs(txs, c), column, t);
      LoadedTime(txs, column, t);
      OverlaidLookup(LoadTimes(txs, column), TimesIn(c, column), t);
    }
    SameLookups(loaded, expected);
  }

  lemma SameLookups<K, V>(a: map<K, V>, b: map<K, V>)
    requires forall k: K :: Lookup(a, k) == Lookup(b, k)
    ensures a == b
  {
    forall k: K
      ensures k in a <==> k in b
      ensures k in a ==> a[k] == b[k]
    {
      assert Lookup(a, k) == Lookup(b, k);
    }
  }

  lemma TxsRoundTrip(c: ChangeSet)
    ensures LoadRaw(PersistTxs(map[], c)) == c.txs
    ensures LoadTimes(PersistTxs(map[], c), FirstSeen) == c.firstSeen
    ensures LoadTimes(PersistTxs(map[], c), LastSeen) == c.lastSeen
    ensures LoadTimes(PersistTxs(map[], c), LastEvicted) == c.lastEvicted
  {
    RawOverlays(map[], c);
    TimesOverlay(map[], c, FirstSeen);
    TimesOverlay(map[], c, LastSeen);
    TimesOverlay(map[], c, LastEvicted);
    OverlayOnNothing(c.txs);
    OverlayOnNothing(c.firstSeen);
    OverlayOnNothing(c.lastSeen);
    OverlayOnNothing(c.lastEvicted);
  }

  // ---------------------------------------------------------------- persisting against merging

  lemma OverlayIsMaxIff(stored: map<Txid, nat>, delta: map<Txid, nat>)
    ensures stored + delta == MaxMap(stored, delta) <==> forall t | t in stored && t in delta :: stored[t] <= delta[t]
  {
    var overlay, greatest := stored + delta, MaxMap(stored, delta);
    assert overlay.Keys == greatest.Keys;
    if overlay == greatest {
      forall t | t in stored && t in delta
        ensures stored[t] <= delta[t]
      {
        assert overlay[t] == greatest[t];
      }
    }
  }

  lemma OverlayIsMinIff(stored: map<Txid, nat>, delta: map<Txid, nat>)
    ensures stored + delta == MinMap(stored, delta) <==> forall t | t in stored && t in delta :: delta[t] <= stored[t]
  {
    var overlay, least := stored + delta, MinMap(stored, delta);
    assert overlay.Keys == least.Keys;
    if overlay == least {
      forall t | t in stored && t in delta
        ensures delta[t] <= stored[t]
      {
        assert overlay[t] == least[t];
      }
    }
  }

  /** No timestamp of the delta is staler than the one it would overwrite. */
  ghost predicate Fresh(stored: map<Txid, nat>, delta: map<Txid, nat>, column: TimeColumn)
  {
    forall t | t in stored && t in delta ::
      if column.FirstSeen? then delta[t] <= stored[t] else stored[t] <= delta[t]
  }

  /**
   * Persisting merges a delta's timestamps into the stored ones exactly when none of them is staler: a
   * stale one overwrites the stored value, where merging would keep it.
   */
  lemma TimestampsMergeIffFresh(s: Store, c: ChangeSet, column: TimeColumn)
    ensures TimesIn(Load(Persist(s, c)), column) == TimesIn(Merge(Load(s), c), column)
      <==> Fresh(TimesIn(Load(s), column), TimesIn(c, column), column)
  {
    TimesOverlay(s.txs, c, column);
    if column.FirstSeen? {
      OverlayIsMinIff(LoadTimes(s.txs, column), TimesIn(c, column));
    } else {
      OverlayIsMaxIff(LoadTimes(s.txs, column), TimesIn(c, column));
    }
  }

  lemma LocksRoundTrip(c: ChangeSet)
    ensures LoadLocks(PersistLocks({}, c)) == c.locked <==> forall o | o in c.locked :: c.locked[o]
  {
    var loaded := LoadLocks(PersistLocks({}, c));
    assert forall o :: o in loaded <==> o in c.locked && c.locked[o];
    if forall o | o in c.locked :: c.locked[o] {
      assert loaded.Keys == c.locked.Keys;
    }
  }

  lemma BlocksRoundTrip(blocks: map<nat, Option<string>>)
    ensures LoadBlocks(PersistBlocks(map[], blocks)) == blocks <==> forall h | h in blocks :: blocks[h].Some?
  {
    var loaded := LoadBlocks(PersistBlocks(map[], blocks));
    assert forall h :: h in loaded <==> h in blocks && blocks[h].Some?;
    if forall h | h in blocks :: blocks[h].Some? {
      assert loaded.Keys == blocks.Keys;
    }
  }

  lemma LoadedForm(c: ChangeSet)
    ensures Load(Persist(EMPTY_STORE, c)) == c.(
      locked := LoadLocks(PersistLocks({}, c)),
      blocks := LoadBlocks(PersistBlocks(map[], c.blocks)),
      anchors := LoadAnchors(LatestAnchors(c.anchors)))
  {
    TxsRoundTrip(c);
    OverlayOnNothing(c.txouts);
    OverlayOnNothing(LatestAnchors(c.anchors));
    MaxWithNothing(c.lastRevealed);
  }

  lemma OverlayOnNothing<K, V>(m: map<K, V>)
    ensures map[] + m == m
  {
  }

  lemma MaxWithNothing<K>(m: map<K, nat>)
    ensures MaxMap(map[], m) == m
  {
    assert MaxMap(map[], m).Keys == m.Keys;
  }

  lemma SameFields(c: ChangeSet, locked: map<Outpoint, bool>, blocks: map<nat, Option<string>>, anchors: set<Anchor>)
    ensures c.(locked := locked, blocks := blocks, anchors := anchors) == c
      <==> locked == c.locked && blocks == c.blocks && anchors == c.anchors
  {
  }

  /** A change set comes back as it was written exactly when it removes nothing and its anchors are unique. */
  lemma RoundTripIffAdditive(c: ChangeSet)
    ensures Load(Persist(EMPTY_STORE, c)) == c <==> Additive(c)
  {
    LoadedForm(c);
    var locked, blocks := LoadLocks(PersistLocks({}, c)), LoadBlocks(PersistBlocks(map[], c.blocks));
    SameFields(c, locked, blocks, LoadAnchors(LatestAnchors(c.anchors)));
    LocksRoundTrip(c);
    BlocksRoundTrip(c.blocks);
    AnchorsRoundTrip(c.anchors);
  }
}
