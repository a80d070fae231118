/** What a write does to tables that hold something already, and when it is the merge of the change sets. */
module BdkWrites {

  import opened Common
  import opened Assignments
  import opened BdkStore

  // ---------------------------------------------------------------- column by column, key by key

  /** The wallet row keeps every column that the change set does not carry. */
  lemma WalletRowAfter(s: Store, c: ChangeSet)
    ensures var t := Persist(s, c);
      && (c.descriptor.None? ==> t.descriptor == s.descriptor)
      && (c.descriptor.Some? ==> t.descriptor == c.descriptor)
      && (c.changeDescriptor.None? ==> t.changeDescriptor == s.changeDescriptor)
      && (c.changeDescriptor.Some? ==> t.changeDescriptor == c.changeDescriptor)
      && (c.network.None? ==> t.network == s.network)
      && (c.network.Some? ==> t.network == c.network)
  {
  }

  /** A locked output stays locked unless the change set unlocks it, and another one is locked only by it. */
  lemma LockAfter(s: Store, c: ChangeSet, o: Outpoint)
    ensures o in Persist(s, c).locked <==> if o in c.locked then c.locked[o] else o in s.locked
  {
  }

  /** A block hash stays unless the change set replaces or removes it. */
  lemma BlockAfter(s: Store, c: ChangeSet, h: nat)
    ensures h in Persist(s, c).blocks <==> if h in c.blocks then c.blocks[h].Some? else h in s.blocks
    ensures h in Persist(s, c).blocks ==>
      Persist(s, c).blocks[h] == if h in c.blocks then c.blocks[h].value else s.blocks[h]
  {
  }

  lemma TxOutAfter(s: Store, c: ChangeSet, o: Outpoint)
    ensures o in Persist(s, c).txouts <==> o in s.txouts || o in c.txouts
    ensures o in Persist(s, c).txouts ==>
      Persist(s, c).txouts[o] == if o in c.txouts then c.txouts[o] else s.txouts[o]
  {
  }

  /** An anchor keeps its time unless the change set has the same one, whose latest time it then takes. */
  lemma AnchorAfter(s: Store, c: ChangeSet, k: AnchorKey)
    ensures k in Persist(s, c).anchors <==> k in s.anchors || exists a :: a in c.anchors && a.key == k
    ensures k in Persist(s, c).anchors ==>
      if exists a :: a in c.anchors && a.key == k
      then Anchor(k, Persist(s, c).anchors[k]) in c.anchors
           && forall a | a in c.anchors && a.key == k :: a.time <= Persist(s, c).anchors[k]
      else Persist(s, c).anchors[k] == s.anchors[k]
  {
    assert k in AnchorKeys(c.anchors) <==> exists a :: a in c.anchors && a.key == k;
    if k in AnchorKeys(c.anchors) {
      LatestIsMember(c.anchors, k);
    }
  }

  /** A revealed index is the greater one of what is stored and what is written. */
  lemma RevealedAfter(s: Store, c: ChangeSet, d: DescriptorId)
    ensures var r := Persist(s, c).lastRevealed;
      && (d in r <==> d in s.lastRevealed || d in c.lastRevealed)
      && (d in s.lastRevealed ==> s.lastRevealed[d] <= r[d])
      && (d in c.lastRevealed ==> c.lastRevealed[d] <= r[d])
      && (d in r ==> (d in s.lastRevealed && r[d] == s.lastRevealed[d])
                     || (d in c.lastRevealed && r[d] == c.lastRevealed[d]))
  {
  }

  /** A transaction has a row once it had one, or the change set carries a column or an anchor of it. */
  lemma RowsAfter(s: Store, c: ChangeSet, t: Txid)
    ensures t in Persist(s, c).txs <==>
      || t in s.txs || t in c.txs || t in c.firstSeen || t in c.lastSeen || t in c.lastEvicted
      || exists a :: a in c.anchors && a.key.txid == t
  {
  }

  /** Column by column, a row keeps what the change set does not carry. */
  lemma ColumnsAfter(s: Store, c: ChangeSet, t: Txid)
    requires t in Persist(s, c).txs
    ensures var row, old_ := Persist(s, c).txs[t], if t in s.txs then s.txs[t] else TxRow(None, None, None, None);
      && row.raw == (if t in c.txs then Some(c.txs[t]) else old_.raw)
      && row.firstSeen == (if t in c.firstSeen then Some(c.firstSeen[t]) else old_.firstSeen)
      && row.lastSeen == (if t in c.lastSeen then Some(c.lastSeen[t]) else old_.lastSeen)
      && row.lastEvicted == (if t in c.lastEvicted then Some(c.lastEvicted[t]) else old_.lastEvicted)
  {
  }

  /** Nothing to write changes nothing. */
  lemma NothingWritten(s: Store)
    ensures Persist(s, NO_CHANGES) == s
  {
    var t := Persist(s, NO_CHANGES);
    assert LatestAnchors({}) == map[];
    assert s.anchors + map[] == s.anchors && s.txouts + map[] == s.txouts;
    assert t.blocks == s.blocks;
    assert Touched(NO_CHANGES) == {};
    forall x | x in s.txs
      ensures t.txs[x] == s.txs[x]
    {
      RowAfter(s.txs, NO_CHANGES, x);
    }
    assert t.txs == s.txs;
    assert t.lastRevealed == s.lastRevealed;
  }

  // ---------------------------------------------------------------- merging

  /** The later change set decides about what it mentions. */
  lemma MergedAt<K, V>(a: map<K, V>, b: map<K, V>, k: K)
    ensures k in a + b <==> k in a || k in b
    ensures k in a + b ==> (a + b)[k] == if k in b then b[k] else a[k]
  {
  }

  lemma MergeKeepsLater(a: ChangeSet, b: ChangeSet)
    ensures var m := Merge(a, b);
      && m.descriptor == (if b.descriptor.Some? then b.descriptor else a.descriptor)
      && m.changeDescriptor == (if b.changeDescriptor.Some? then b.changeDescriptor else a.changeDescriptor)
      && m.network == (if b.network.Some? then b.network else a.network)
      && m.locked == a.locked + b.locked && m.blocks == a.blocks + b.blocks
      && m.txs == a.txs + b.txs && m.txouts == a.txouts + b.txouts && m.anchors == a.anchors + b.anchors
  {
  }

  /** First sightings keep the earlier time, last sightings, evictions and revealed indices the later one. */
  lemma MergeKeepsExtremes(a: ChangeSet, b: ChangeSet, t: Txid, d: DescriptorId)
    ensures var m := Merge(a, b);
      && (t in a.firstSeen && t in b.firstSeen ==>
            m.firstSeen[t] <= a.firstSeen[t] && m.firstSeen[t] <= b.firstSeen[t]
            && m.firstSeen[t] in {a.firstSeen[t], b.firstSeen[t]})
      && (t in a.lastSeen && t in b.lastSeen ==>
            a.lastSeen[t] <= m.lastSeen[t] && b.lastSeen[t] <= m.lastSeen[t]
            && m.lastSeen[t] in {a.lastSeen[t], b.lastSeen[t]})
      && (t in a.lastEvicted && t in b.lastEvicted ==>
            a.lastEvicted[t] <= m.lastEvicted[t] && b.lastEvicted[t] <= m.lastEvicted[t]
            && m.lastEvicted[t] in {a.lastEvicted[t], b.lastEvicted[t]})
      && (d in a.lastRevealed && d in b.lastRevealed ==>
            a.lastRevealed[d] <= m.lastRevealed[d] && b.lastRevealed[d] <= m.lastRevealed[d]
            && m.lastRevealed[d] in {a.lastRevealed[d], b.lastRevealed[d]})
  {
  }

  lemma MaxAssociative<K>(a: map<K, nat>, b: map<K, nat>, c: map<K, nat>)
    ensures MaxMap(MaxMap(a, b), c) == MaxMap(a, MaxMap(b, c))
  {
    assert MaxMap(MaxMap(a, b), c).Keys == MaxMap(a, MaxMap(b, c)).Keys;
  }

  lemma MinAssociative<K>(a: map<K, nat>, b: map<K, nat>, c: map<K, nat>)
    ensures MinMap(MinMap(a, b), c) == MinMap(a, MinMap(b, c))
  {
    assert MinMap(MinMap(a, b), c).Keys == MinMap(a, MinMap(b, c)).Keys;
  }

  lemma OverlayAssociative<K, V>(a: map<K, V>, b: map<K, V>, c: map<K, V>)
    ensures (a + b) + c == a + (b + c)
  {
    assert ((a + b) + c).Keys == (a + (b + c)).Keys;
  }

  /** In whatever groups deltas are staged and gathered, the merged change set is the same. */
  lemma MergeAssociative(a: ChangeSet, b: ChangeSet, c: ChangeSet)
    ensures Merge(Merge(a, b), c) == Merge(a, Merge(b, c))
  {
    OverlayAssociative(a.locked, b.locked, c.locked);
    OverlayAssociative(a.blocks, b.blocks, c.blocks);
    OverlayAssociative(a.txs, b.txs, c.txs);
    OverlayAssociative(a.txouts, b.txouts, c.txouts);
    MinAssociative(a.firstSeen, b.firstSeen, c.firstSeen);
    MaxAssociative(a.lastSeen, b.lastSeen, c.lastSeen);
    MaxAssociative(a.lastEvicted, b.lastEvicted, c.lastEvicted);
    MaxAssociative(a.lastRevealed, b.lastRevealed, c.lastRevealed);
    assert (a.anchors + b.anchors) + c.anchors == a.anchors + (b.anchors + c.anchors);
  }

  // ---------------------------------------------------------------- writing against merging

  /** What is loaded after a write, by what was loaded before. */
  lemma LoadedAfter(s: Store, c: ChangeSet)
    ensures var loaded, merged := Load(Persist(s, c)), Merge(Load(s), c);
      && loaded.descriptor == merged.descriptor && loaded.changeDescriptor == merged.changeDescriptor
      && loaded.network == merged.network && loaded.txs == merged.txs && loaded.txouts == merged.txouts
      && loaded.lastRevealed == merged.lastRevealed
  {
    RawOverlays(s.txs, c);
  }

  lemma LocksMergeIff(locked: set<Outpoint>, c: ChangeSet)
    ensures LoadLocks(PersistLocks(locked, c)) == LoadLocks(locked) + c.locked <==>
            forall o | o in c.locked :: c.locked[o]
  {
    var loaded, merged := LoadLocks(PersistLocks(locked, c)), LoadLocks(locked) + c.locked;
    if forall o | o in c.locked :: c.locked[o] {
      assert loaded.Keys == merged.Keys;
    } else {
      var o :| o in c.locked && !c.locked[o];
      assert o in merged && o !in loaded;
    }
  }

  lemma BlocksMergeIff(blocks: map<nat, string>, changes: map<nat, Option<string>>)
    ensures LoadBlocks(PersistBlocks(blocks, changes)) == LoadBlocks(blocks) + changes <==>
            forall h | h in changes :: changes[h].Some?
  {
    var loaded, merged := LoadBlocks(PersistBlocks(blocks, changes)), LoadBlocks(blocks) + changes;
    if forall h | h in changes :: changes[h].Some? {
      assert loaded.Keys == merged.Keys;
    } else {
      var h :| h in changes && changes[h].None?;
      assert h in merged && h !in loaded;
    }
  }

  /** No anchor that is written has two times, or another one than is stored. */
  ghost predicate AnchorsAgree(stored: map<AnchorKey, nat>, added: set<Anchor>)
  {
    && (forall a, b | a in added && b in added && a.key == b.key :: a == b)
    && (forall a | a in added && a.key in stored :: stored[a.key] == a.time)
  }

  lemma LoadedAnchor(stored: map<AnchorKey, nat>, added: set<Anchor>, a: Anchor)
    requires AnchorsAgree(stored, added)
    ensures a in LoadAnchors(stored + LatestAnchors(added)) <==> a in LoadAnchors(stored) + added
  {
    var written := stored + LatestAnchors(added);
    assert a in LoadAnchors(stored) <==> a.key in stored && stored[a.key] == a.time;
    assert a in LoadAnchors(written) <==> a.key in written && written[a.key] == a.time;
    if a.key in AnchorKeys(added) {
      LatestIsMember(added, a.key);
      var latest := Anchor(a.key, Latest(added, a.key));
      assert latest in added && written[a.key] == latest.time;
      assert a in added <==> a == latest;
    } else {
      assert a !in added;
    }
  }

  lemma DisagreeingAnchors(stored: map<AnchorKey, nat>, added: set<Anchor>)
    requires LoadAnchors(stored + LatestAnchors(added)) == LoadAnchors(stored) + added
    ensures AnchorsAgree(stored, added)
  {
    var loaded := LoadAnchors(stored + LatestAnchors(added));
    forall a | a in added && a.key in stored
      ensures stored[a.key] == a.time
    {
      assert Anchor(a.key, stored[a.key]) in LoadAnchors(stored);
      assert Anchor(a.key, stored[a.key]) in loaded && a in loaded;
    }
    assert forall a | a in added :: a in loaded;
  }

  lemma AnchorsMergeIff(stored: map<AnchorKey, nat>, added: set<Anchor>)
    ensures LoadAnchors(stored + LatestAnchors(added)) == LoadAnchors(stored) + added <==> AnchorsAgree(stored, added)
  {
    if AnchorsAgree(stored, added) {
      forall a
        ensures a in LoadAnchors(stored + LatestAnchors(added)) <==> a in LoadAnchors(stored) + added
      {
        LoadedAnchor(stored, added, a);
      }
    } else if LoadAnchors(stored + LatestAnchors(added)) == LoadAnchors(stored) + added {
      DisagreeingAnchors(stored, added);
    }
  }

  /** No timestamp of the change set is staler than the stored one. */
  ghost predicate TimesFresh(s: Store, c: ChangeSet)
  {
    && Fresh(LoadTimes(s.txs, FirstSeen), c.firstSeen, FirstSeen)
    && Fresh(LoadTimes(s.txs, LastSeen), c.lastSeen, LastSeen)
    && Fresh(LoadTimes(s.txs, LastEvicted), c.lastEvicted, LastEvicted)
  }

  lemma TimesMergeIff(s: Store, c: ChangeSet)
    ensures var loaded, merged := Load(Persist(s, c)), Merge(Load(s), c);
      TimesFresh(s, c) <==>
        && loaded.firstSeen == merged.firstSeen && loaded.lastSeen == merged.lastSeen
        && loaded.lastEvicted == merged.lastEvicted
  {
    TimestampsMergeIffFresh(s, c, FirstSeen);
    TimestampsMergeIffFresh(s, c, LastSeen);
    TimestampsMergeIffFresh(s, c, LastEvicted);
  }

  /** What a change set must be like for a write to do what merging does. */
  ghost predicate Mergeable(s: Store, c: ChangeSet)
  {
    && (forall o | o in c.locked :: c.locked[o])
    && (forall h | h in c.blocks :: c.blocks[h].Some?)
    && AnchorsAgree(s.anchors, c.anchors) && TimesFresh(s, c)
  }

  lemma SameChangeSet(a: ChangeSet, b: ChangeSet)
    requires a.descriptor == b.descriptor && a.changeDescriptor == b.changeDescriptor && a.network == b.network
    requires a.txs == b.txs && a.txouts == b.txouts && a.lastRevealed == b.lastRevealed
    ensures a == b <==>
      && a.locked == b.locked && a.blocks == b.blocks && a.anchors == b.anchors
      && a.firstSeen == b.firstSeen && a.lastSeen == b.lastSeen && a.lastEvicted == b.lastEvicted
  {
  }

  /**
   * Writing a change set to any tables and loading them gives the merge of what was there with it exactly
   * when it removes nothing, no time in it is staler than a stored one, and no anchor changes its time.
   */
  lemma WriteIsMergeIff(s: Store, c: ChangeSet)
    ensures Load(Persist(s, c)) == Merge(Load(s), c) <==> Mergeable(s, c)
  {
    LoadedAfter(s, c);
    SameChangeSet(Load(Persist(s, c)), Merge(Load(s), c));
    LocksMergeIff(s.locked, c);
    BlocksMergeIff(s.blocks, c.blocks);
    AnchorsMergeIff(s.anchors, c.anchors);
    TimesMergeIff(s, c);
  }
}
