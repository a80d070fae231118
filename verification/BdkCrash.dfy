/** Crash-safe persistence of the Bitcoin wallet: staged, pending, temporary file, file, transaction, tables. */
module BdkCrash {

  import opened Common
  import opened BdkStore

  // ---------------------------------------------------------------- what has to survive

  datatype Fact = TxStored(txid: Txid) | AnchorStored(key: AnchorKey) | Revealed(descriptor: DescriptorId, index: nat)

  predicate Holds(s: Store, f: Fact)
  {
    match f
    case TxStored(t) => t in s.txs && s.txs[t].raw.Some?
    case AnchorStored(k) => k in s.anchors
    case Revealed(d, n) => d in s.lastRevealed && n <= s.lastRevealed[d]
  }

  predicate Carries(c: ChangeSet, f: Fact)
  {
    match f
    case TxStored(t) => t in c.txs
    case AnchorStored(k) => k in AnchorKeys(c.anchors)
    case Revealed(d, n) => d in c.lastRevealed && n <= c.lastRevealed[d]
  }

  /** Writing a change set keeps every fact and adds exactly those it carries. */
  lemma PersistHolds(s: Store, c: ChangeSet, f: Fact)
    ensures Holds(Persist(s, c), f) <==> Holds(s, f) || Carries(c, f)
  {
    match f
    case TxStored(t) =>
      RawOverlays(s.txs, c);
      assert Holds(Persist(s, c), f) <==> t in LoadRaw(PersistTxs(s.txs, c));
      assert Holds(s, f) <==> t in LoadRaw(s.txs);
    case AnchorStored(k) =>
    case Revealed(d, n) =>
  }

  lemma MergeCarries(a: ChangeSet, b: ChangeSet, f: Fact)
    ensures Carries(Merge(a, b), f) <==> Carries(a, f) || Carries(b, f)
  {
    match f
    case TxStored(t) =>
    case AnchorStored(k) =>
      assert AnchorKeys(a.anchors + b.anchors) == AnchorKeys(a.anchors) + AnchorKeys(b.anchors);
    case Revealed(d, n) =>
  }

  lemma ExtendsCarries(p: ChangeSet, m: ChangeSet, f: Fact)
    requires Extends(p, m) && Carries(p, f)
    ensures Carries(m, f)
  {
    match f
    case TxStored(t) => assert t in p.txs.Keys;
    case AnchorStored(k) =>
    case Revealed(d, n) =>
  }

  lemma ExtendsTransitive(a: ChangeSet, b: ChangeSet, c: ChangeSet)
    requires Extends(a, b) && Extends(b, c)
    ensures Extends(a, c)
  {
    forall d | d in a.lastRevealed
      ensures d in c.lastRevealed && a.lastRevealed[d] <= c.lastRevealed[d]
    {
      assert d in b.lastRevealed;
    }
  }

  // ---------------------------------------------------------------- the system

  datatype Tmp = NoTmp | Partial | Complete(changes: ChangeSet)

  datatype Phase =
    | Idle
    | Flushing   // the temporary file is being written
    | Persisted  // written to the open transaction, not committed
    | Clearing   // committed, the pending buffer not yet taken
    | Removing   // the pending buffer taken, the file not yet removed

  datatype Process =
    | Down
    | Up(staged: ChangeSet, pending: ChangeSet, phase: Phase)
    | ReadingFile(txn: Store)
    | ReadingTmp(txn: Store)
    | Loaded(txn: Store)
    | DroppingFile
    | DroppingTmp

  datatype Sys = Sys(db: Store, file: Option<ChangeSet>, tmp: Tmp, process: Process)

  const NEW_SYSTEM := Sys(EMPTY_STORE, None, NoTmp, Down)

  datatype Event =
    | Stage(changes: ChangeSet)
    | BeginFlush | WritePart | WriteAll | Rename
    | PersistBdk | Commit | TakePending | RemoveFile | Rollback
    | Crash
    | Boot | ReadFile | ReadTmp | Create(changes: ChangeSet) | CommitRecovery | DropFile | DropTmp

  ghost function WithFile(s: Store, file: Option<ChangeSet>): Store
  {
    if file.Some? then Persist(s, file.value) else s
  }

  ghost function WithTmp(s: Store, tmp: Tmp): Store
  {
    if tmp.Complete? then Persist(s, tmp.changes) else s
  }

  /** Move what is staged into the pending buffer. */
  function Gathered(p: Process): ChangeSet
    requires p.Up?
  {
    Merge(p.pending, p.staged)
  }

  /** The phase in which the running process takes a step. */
  predicate Allowed(phase: Phase, e: Event)
  {
    match e
    case Stage(_) => phase == Idle
    case BeginFlush => phase == Idle
    case WritePart => phase == Flushing
    case WriteAll => phase == Flushing
    case Rename => phase == Flushing
    case PersistBdk => phase == Idle
    case Commit => phase == Persisted
    case Rollback => phase == Persisted
    case TakePending => phase == Clearing
    case RemoveFile => phase == Removing
    case _ => false
  }

  /** Events of the running process. */
  ghost function StepUp(s: Sys, e: Event): Option<Sys>
    requires s.process.Up?
  {
    var p := s.process;
    if !Allowed(p.phase, e) || (e.Rename? && !s.tmp.Complete?) then None
    else match e
      case Stage(c) => Some(s.(process := p.(staged := Merge(p.staged, c))))
      case BeginFlush =>
        if Gathered(p) == NO_CHANGES then Some(s.(process := Up(NO_CHANGES, Gathered(p), Idle)))
        else Some(s.(tmp := NoTmp, process := Up(NO_CHANGES, Gathered(p), Flushing)))
      case WritePart => Some(s.(tmp := Partial))
      case WriteAll => Some(s.(tmp := Complete(p.pending)))
      case Rename => Some(s.(file := Some(s.tmp.changes), tmp := NoTmp, process := p.(phase := Idle)))
      case PersistBdk =>
        Some(s.(process := Up(NO_CHANGES, Gathered(p), if Gathered(p) == NO_CHANGES then Idle else Persisted)))
      case Commit => Some(s.(db := Persist(s.db, p.pending), process := p.(phase := Clearing)))
      case Rollback => Some(s.(process := p.(phase := Idle)))
      case TakePending => Some(s.(process := p.(pending := NO_CHANGES, phase := Removing)))
      case RemoveFile => Some(s.(file := None, process := p.(phase := Idle)))
      case _ => None
  }

  /** Events of the process starting up. */
  ghost function StepStart(s: Sys, e: Event): Option<Sys>
    requires !s.process.Up?
  {
    var p := s.process;
    match e
    case Boot => if p.Down? then Some(s.(process := ReadingFile(s.db))) else None
    case ReadFile => if p.ReadingFile? then Some(s.(process := ReadingTmp(WithFile(p.txn, s.file)))) else None
    case ReadTmp => if p.ReadingTmp? then Some(s.(process := Loaded(WithTmp(p.txn, s.tmp)))) else None
    // without a stored wallet a new one is created
    case Create(c) =>
      if p.Loaded? && p.txn == EMPTY_STORE then Some(s.(process := Loaded(Persist(p.txn, c)))) else None
    case CommitRecovery => if p.Loaded? then Some(s.(db := p.txn, process := DroppingFile)) else None
    case DropFile => if p.DroppingFile? then Some(s.(file := None, process := DroppingTmp)) else None
    case DropTmp =>
      if p.DroppingTmp? then Some(s.(tmp := NoTmp, process := Up(NO_CHANGES, NO_CHANGES, Idle))) else None
    case _ => None
  }

  ghost function Step(s: Sys, e: Event): Option<Sys>
  {
    if e.Crash? then Some(s.(process := Down))
    else if s.process.Up? then StepUp(s, e)
    else StepStart(s, e)
  }

  // ---------------------------------------------------------------- what every step keeps

  /** The store has every fact the change set carries. */
  ghost predicate Covered(s: Store, c: ChangeSet)
  {
    forall f :: Carries(c, f) ==> Holds(s, f)
  }

  ghost predicate Grown(s: Store, t: Store)
  {
    forall f :: Holds(s, f) ==> Holds(t, f)
  }

  /** A file and a complete temporary file only ever hold two snapshots of one growing buffer. */
  ghost predicate Ordered(s: Sys)
  {
    s.file.Some? && s.tmp.Complete? ==> Extends(s.file.value, s.tmp.changes)
  }

  ghost predicate ProcessInv(s: Sys)
  {
    match s.process
    case Down => true
    case Up(staged, pending, phase) =>
      && (phase != Flushing ==> s.tmp == NoTmp)
      && (s.tmp.Complete? ==> s.tmp.changes == pending)
      && (phase in {Idle, Flushing, Persisted} && s.file.Some? ==> Extends(s.file.value, pending))
      && (phase in {Clearing, Removing} && s.file.Some? ==> Covered(s.db, s.file.value))
      && (phase == Clearing ==> Covered(s.db, pending))
    case ReadingFile(txn) => txn == s.db
    case ReadingTmp(txn) => txn == WithFile(s.db, s.file)
    case Loaded(txn) => Grown(WithTmp(WithFile(s.db, s.file), s.tmp), txn)
    case DroppingFile => s.file.Some? ==> Covered(s.db, s.file.value)
    case DroppingTmp => s.file.None?
  }

  ghost predicate Inv(s: Sys)
  {
    Ordered(s) && ProcessInv(s)
  }

  lemma PersistGrows(s: Store, c: ChangeSet)
    ensures Grown(s, Persist(s, c)) && Covered(Persist(s, c), c)
  {
    forall f
      ensures Holds(Persist(s, c), f) <==> Holds(s, f) || Carries(c, f)
    {
      PersistHolds(s, c, f);
    }
  }

  /** What recovery has read is at least the committed store and the file. */
  lemma RecoveryGrows(s: Store, file: Option<ChangeSet>, tmp: Tmp)
    ensures Grown(s, WithTmp(WithFile(s, file), tmp))
    ensures file.Some? ==> Covered(WithTmp(WithFile(s, file), tmp), file.value)
  {
    var read := WithFile(s, file);
    if file.Some? {
      PersistGrows(s, file.value);
    }
    if tmp.Complete? {
      PersistGrows(read, tmp.changes);
    }
  }

  lemma GatheredExtends(s: Sys)
    requires Inv(s) && s.process.Up? && s.process.phase == Idle
    ensures s.file.Some? ==> Extends(s.file.value, Merge(s.process.pending, s.process.staged))
  {
    MergeExtends(s.process.pending, s.process.staged);
    if s.file.Some? {
      ExtendsTransitive(s.file.value, s.process.pending, Merge(s.process.pending, s.process.staged));
    }
  }

  lemma CommitCovers(s: Sys)
    requires Inv(s) && s.process.Up? && s.process.phase == Persisted
    ensures Covered(Persist(s.db, s.process.pending), s.process.pending)
    ensures s.file.Some? ==> Covered(Persist(s.db, s.process.pending), s.file.value)
  {
    PersistGrows(s.db, s.process.pending);
    if s.file.Some? {
      forall f | Carries(s.file.value, f)
        ensures Holds(Persist(s.db, s.process.pending), f)
      {
        ExtendsCarries(s.file.value, s.process.pending, f);
      }
    }
  }

  lemma GatheringKeepsInv(s: Sys, e: Event)
    requires Inv(s) && s.process.Up? && StepUp(s, e).Some? && s.process.phase == Idle
    ensures Inv(StepUp(s, e).value)
  {
    GatheredExtends(s);
  }

  lemma CommitKeepsInv(s: Sys)
    requires Inv(s) && s.process.Up? && StepUp(s, Commit).Some?
    ensures Inv(StepUp(s, Commit).value)
  {
    CommitCovers(s);
  }

  lemma RunningKeepsInv(s: Sys, e: Event)
    requires Inv(s) && s.process.Up? && StepUp(s, e).Some?
    ensures Inv(StepUp(s, e).value)
  {
    if e.Commit? {
      CommitKeepsInv(s);
    } else if s.process.phase == Idle {
      GatheringKeepsInv(s, e);
    }
  }

  lemma StartingKeepsInv(s: Sys, e: Event)
    requires Inv(s) && !s.process.Up? && StepStart(s, e).Some?
    ensures Inv(StepStart(s, e).value)
  {
    if e.CommitRecovery? {
      RecoveryGrows(s.db, s.file, s.tmp);
    } else if e.Create? {
      PersistGrows(s.process.txn, e.changes);
    }
  }

  lemma StepKeepsInv(s: Sys, e: Event)
    requires Inv(s) && Step(s, e).Some?
    ensures Inv(Step(s, e).value)
  {
    if e.Crash? {
    } else if s.process.Up? {
      RunningKeepsInv(s, e);
    } else {
      StartingKeepsInv(s, e);
    }
  }

  // ---------------------------------------------------------------- durability

  /** A fact is safe once it is committed or in the recovery file. */
  predicate Safe(s: Sys, f: Fact)
  {
    Holds(s.db, f) || (s.file.Some? && Carries(s.file.value, f))
  }

  /** A running process also knows what it has staged or buffered. */
  predicate Known(s: Sys, f: Fact)
  {
    Safe(s, f) || (s.process.Up? && (Carries(s.process.staged, f) || Carries(s.process.pending, f)))
  }

  /** Nothing else writes to the tables. */
  lemma OtherKeepsStore(s: Sys, e: Event)
    requires Step(s, e).Some? && !e.Commit? && !e.CommitRecovery?
    ensures Step(s, e).value.db == s.db
  {
  }

  lemma StepGrowsStore(s: Sys, e: Event)
    requires Inv(s) && Step(s, e).Some?
    ensures Grown(s.db, Step(s, e).value.db)
  {
    if e.Commit? {
      PersistGrows(s.db, s.process.pending);
    } else if e.CommitRecovery? {
      RecoveryGrows(s.db, s.file, s.tmp);
    } else {
      OtherKeepsStore(s, e);
    }
  }

  /** Only a rename puts a file in place, and only its removal takes it away. */
  lemma FileAfter(s: Sys, e: Event)
    requires Step(s, e).Some?
    ensures Step(s, e).value.file ==
      if e.Rename? then Some(s.tmp.changes) else if e.RemoveFile? || e.DropFile? then None else s.file
  {
  }

  lemma FileKeepsSafe(s: Sys, e: Event, f: Fact)
    requires Inv(s) && Step(s, e).Some? && s.file.Some? && Carries(s.file.value, f)
    ensures Holds(s.db, f) || (Step(s, e).value.file.Some? && Carries(Step(s, e).value.file.value, f))
  {
    FileAfter(s, e);
    if e.Rename? {
      ExtendsCarries(s.file.value, s.tmp.changes, f);
    }
  }

  lemma StepKeepsSafe(s: Sys, e: Event, f: Fact)
    requires Inv(s) && Step(s, e).Some? && Safe(s, f)
    ensures Safe(Step(s, e).value, f)
  {
    StepGrowsStore(s, e);
    if s.file.Some? && Carries(s.file.value, f) {
      FileKeepsSafe(s, e, f);
    }
  }

  lemma StepKeepsBuffered(s: Sys, e: Event, f: Fact)
    requires Inv(s) && s.process.Up? && StepUp(s, e).Some?
    requires Carries(s.process.staged, f) || Carries(s.process.pending, f)
    ensures Known(StepUp(s, e).value, f)
  {
    var p := s.process;
    MergeCarries(p.pending, p.staged, f);
    match e
    case Stage(c) => MergeCarries(p.staged, c, f);
    case Commit => PersistHolds(s.db, p.pending, f);
    case TakePending => NothingCarried(f);
    case _ =>
  }

  /** Nothing but a crash makes a process forget, a rollback included. */
  lemma StepKeepsKnown(s: Sys, e: Event, f: Fact)
    requires Inv(s) && Step(s, e).Some? && Known(s, f) && !e.Crash?
    ensures Known(Step(s, e).value, f)
  {
    if Safe(s, f) {
      StepKeepsSafe(s, e, f);
    } else {
      StepKeepsBuffered(s, e, f);
    }
  }

  lemma NothingCarried(f: Fact)
    ensures !Carries(NO_CHANGES, f) && !Holds(EMPTY_STORE, f)
  {
  }

  ghost predicate Runs(s: Sys, events: seq<Event>)
    decreases |events|
  {
    events == [] || (Step(s, events[0]).Some? && Runs(Step(s, events[0]).value, events[1..]))
  }

  ghost function After(s: Sys, events: seq<Event>): Sys
    requires Runs(s, events)
    decreases |events|
  {
    if events == [] then s else After(Step(s, events[0]).value, events[1..])
  }

  lemma {:induction false} RunKeeps(s: Sys, events: seq<Event>)
    requires Inv(s) && Runs(s, events)
    ensures Inv(After(s, events)) && Grown(s.db, After(s, events).db)
    ensures forall f :: Safe(s, f) ==> Safe(After(s, events), f)
    decreases |events|
  {
    if events != [] {
      var next := Step(s, events[0]).value;
      StepKeepsInv(s, events[0]);
      StepGrowsStore(s, events[0]);
      forall f | Safe(s, f)
        ensures Safe(next, f)
      {
        StepKeepsSafe(s, events[0], f);
      }
      RunKeeps(next, events[1..]);
    }
  }

  /** A process with nothing left on disk to recover. */
  predicate Clean(s: Sys)
  {
    s.process.Up? && s.file.None?
  }

  /**
   * Whatever happens after a fact was committed or flushed, crashes at any point included: it is never
   * lost, and once a start-up or a commit has run to its end it is in the tables.
   */
  lemma Durable(s: Sys, events: seq<Event>, f: Fact)
    requires Inv(s) && Runs(s, events) && Safe(s, f)
    ensures Safe(After(s, events), f)
    ensures Clean(After(s, events)) ==> Holds(After(s, events).db, f)
  {
    RunKeeps(s, events);
  }

  /** Over any run from a new system, no stored revealed index ever goes down. */
  lemma RevealedNeverDecreases(before: seq<Event>, after: seq<Event>, d: DescriptorId)
    requires Runs(NEW_SYSTEM, before) && Runs(After(NEW_SYSTEM, before), after)
    requires d in After(NEW_SYSTEM, before).db.lastRevealed
    ensures d in After(After(NEW_SYSTEM, before), after).db.lastRevealed
    ensures After(NEW_SYSTEM, before).db.lastRevealed[d] <= After(After(NEW_SYSTEM, before), after).db.lastRevealed[d]
  {
    var middle := After(NEW_SYSTEM, before);
    RunKeeps(NEW_SYSTEM, before);
    RunKeeps(middle, after);
    assert Holds(middle.db, Revealed(d, middle.db.lastRevealed[d]));
  }

  // ---------------------------------------------------------------- what recovery ends on

  const START: seq<Event> := [Boot, ReadFile, ReadTmp, CommitRecovery]

  /** The newest snapshot that was completely written. */
  function Newest(s: Sys): Option<ChangeSet>
  {
    if s.tmp.Complete? then Some(s.tmp.changes) else s.file
  }

  lemma Started(s: Sys)
    requires s.process.Down?
    ensures Runs(s, START)
    ensures After(s, START) == s.(db := WithTmp(WithFile(s.db, s.file), s.tmp), process := DroppingFile)
  {
    var s1 := s.(process := ReadingFile(s.db));
    var s2 := s.(process := ReadingTmp(WithFile(s.db, s.file)));
    var s3 := s.(process := Loaded(WithTmp(WithFile(s.db, s.file), s.tmp)));
    var s4 := s3.(db := s3.process.txn, process := DroppingFile);
    assert Runs(s4, []) && After(s4, []) == s4;
    Chain(s3, CommitRecovery, s4, []);
    Chain(s2, ReadTmp, s3, [CommitRecovery]);
    Chain(s1, ReadFile, s2, [ReadTmp, CommitRecovery]);
    Chain(s, Boot, s1, [ReadFile, ReadTmp, CommitRecovery]);
    assert [Boot] + ([ReadFile] + ([ReadTmp] + ([CommitRecovery] + []))) == START;
  }

  lemma Chain(s: Sys, e: Event, next: Sys, rest: seq<Event>)
    requires Step(s, e) == Some(next) && Runs(next, rest)
    ensures Runs(s, [e] + rest) && After(s, [e] + rest) == After(next, rest)
  {
    assert ([e] + rest)[1..] == rest;
  }

  /** Reading the file and then the temporary file ends on the newest snapshot, as if only it had been read. */
  lemma RecoveryEndsOnNewest(s: Sys)
    requires Inv(s) && s.process.Down?
    ensures Runs(s, START) && After(s, START).db == WithFile(s.db, Newest(s))
  {
    Started(s);
    if s.file.Some? && s.tmp.Complete? {
      ExtensionAbsorbs(s.db, s.file.value, s.tmp.changes);
    }
  }

  /** A crash before the files are dropped changes nothing: recovering again gives the same tables. */
  lemma RecoveryIdempotent(s: Sys)
    requires Inv(s) && s.process.Down?
    ensures var again := After(s, START).(process := Down);
      Runs(s, START) && Step(After(s, START), Crash) == Some(again)
      && Runs(again, START) && After(again, START).db == After(s, START).db
  {
    Started(s);
    RunKeeps(s, START);
    var again := After(s, START).(process := Down);
    RecoveryEndsOnNewest(s);
    RecoveryEndsOnNewest(again);
    if Newest(s).Some? {
      PersistIdempotent(s.db, Newest(s).value);
    }
  }

  /** The stored hashes are already those that the change set writes. */
  ghost predicate BlocksAgree(blocks: map<nat, string>, changes: map<nat, Option<string>>)
  {
    forall h | h in changes :: Lookup(blocks, h) == changes[h]
  }

  lemma BlocksUnchangedIff(blocks: map<nat, string>, changes: map<nat, Option<string>>)
    ensures PersistBlocks(blocks, changes) == blocks <==> BlocksAgree(blocks, changes)
  {
    var after := PersistBlocks(blocks, changes);
    if after == blocks {
      forall h | h in changes
        ensures Lookup(blocks, h) == changes[h]
      {
        assert Lookup(after, h) == changes[h];
      }
    } else if BlocksAgree(blocks, changes) {
      forall h: nat
        ensures Lookup(after, h) == Lookup(blocks, h)
      {
      }
      SameLookups(after, blocks);
    }
  }

  /**
   * Only the monotone facts are claimed to survive a crash. The stored block hashes do, exactly when they
   * agree with the newest snapshot on disk; a file left from before a commit may not.
   */
  lemma BlocksSurviveCrashIff(s: Sys)
    requires Inv(s)
    ensures Runs(s, [Crash] + START)
    ensures After(s, [Crash] + START).db.blocks == s.db.blocks
      <==> (Newest(s).Some? ==> BlocksAgree(s.db.blocks, Newest(s).value.blocks))
  {
    var down := s.(process := Down);
    StepKeepsInv(s, Crash);
    RecoveryEndsOnNewest(down);
    Chain(s, Crash, down, START);
    if Newest(s).Some? {
      BlocksUnchangedIff(s.db.blocks, Newest(s).value.blocks);
    }
  }

  const OLDER := NO_CHANGES.(blocks := map[7 := Some("aa")])
  const NEWER := NO_CHANGES.(blocks := map[7 := Some("bb")])

  const BOOT: seq<Event> := START + [DropFile, DropTmp]
  const FLUSH_OLDER: seq<Event> := [Stage(OLDER)] + ([BeginFlush] + ([WriteAll] + ([Rename] + [])))
  const COMMIT_NEWER: seq<Event> := [Stage(NEWER)] + ([PersistBdk] + ([Commit] + []))

  function Running(db: Store, file: Option<ChangeSet>, staged: ChangeSet, pending: ChangeSet, phase: Phase): Sys
  {
    Sys(db, file, NoTmp, Up(staged, pending, phase))
  }

  lemma {:induction false} RunsInTurn(s: Sys, a: seq<Event>, b: seq<Event>)
    requires Runs(s, a) && Runs(After(s, a), b)
    ensures Runs(s, a + b) && After(s, a + b) == After(After(s, a), b)
    decreases |a|
  {
    if a == [] {
      assert a + b == b;
    } else {
      RunsInTurn(Step(s, a[0]).value, a[1..], b);
      assert (a + b)[1..] == a[1..] + b;
    }
  }

  lemma StartedAndDropped(disk: Sys)
    requires disk.process.Down?
    ensures Runs(disk, BOOT)
    ensures After(disk, BOOT)
         == Running(WithTmp(WithFile(disk.db, disk.file), disk.tmp), None, NO_CHANGES, NO_CHANGES, Idle)
  {
    Started(disk);
    var s1 := After(disk, START);
    var s2 := s1.(file := None, process := DroppingTmp);
    var end := Running(s1.db, None, NO_CHANGES, NO_CHANGES, Idle);
    Chain(s2, DropTmp, end, []);
    Chain(s1, DropFile, s2, [DropTmp] + []);
    assert [DropFile] + ([DropTmp] + []) == [DropFile, DropTmp];
    RunsInTurn(disk, START, [DropFile, DropTmp]);
  }

  lemma Merges()
    ensures Merge(NO_CHANGES, OLDER) == OLDER && Merge(NO_CHANGES, NEWER) == NEWER && Merge(OLDER, NEWER) == NEWER
  {
    assert OLDER.blocks + NEWER.blocks == NEWER.blocks;
  }

  /** The older hash is flushed to the file, not committed. */
  lemma OlderFlushed()
    ensures var s := Running(EMPTY_STORE, None, NO_CHANGES, NO_CHANGES, Idle);
      && Runs(s, FLUSH_OLDER)
      && After(s, FLUSH_OLDER) == Running(EMPTY_STORE, Some(OLDER), NO_CHANGES, OLDER, Idle)
  {
    Merges();
    var s0 := Running(EMPTY_STORE, None, NO_CHANGES, NO_CHANGES, Idle);
    var s1 := Running(EMPTY_STORE, None, OLDER, NO_CHANGES, Idle);
    var s2 := Running(EMPTY_STORE, None, NO_CHANGES, OLDER, Flushing);
    var s3 := s2.(tmp := Complete(OLDER));
    Chain(s3, Rename, Running(EMPTY_STORE, Some(OLDER), NO_CHANGES, OLDER, Idle), []);
    Chain(s2, WriteAll, s3, [Rename] + []);
    assert OLDER != NO_CHANGES by { assert 7 in OLDER.blocks; }
    Chain(s1, BeginFlush, s2, [WriteAll] + ([Rename] + []));
    Chain(s0, Stage(OLDER), s1, [BeginFlush] + ([WriteAll] + ([Rename] + [])));
  }

  /** The newer hash is committed, the file with the older one not yet removed. */
  ghost function Interrupted(): Sys
  {
    Running(Persist(EMPTY_STORE, NEWER), Some(OLDER), NO_CHANGES, NEWER, Clearing)
  }

  lemma NewerCommitted()
    ensures var s := Running(EMPTY_STORE, Some(OLDER), NO_CHANGES, OLDER, Idle);
      Runs(s, COMMIT_NEWER) && After(s, COMMIT_NEWER) == Interrupted()
  {
    Merges();
    var s0 := Running(EMPTY_STORE, Some(OLDER), NO_CHANGES, OLDER, Idle);
    var s1 := Running(EMPTY_STORE, Some(OLDER), NEWER, OLDER, Idle);
    var s2 := Running(EMPTY_STORE, Some(OLDER), NO_CHANGES, NEWER, Persisted);
    Chain(s2, Commit, Interrupted(), []);
    assert NEWER != NO_CHANGES by { assert 7 in NEWER.blocks; }
    Chain(s1, PersistBdk, s2, [Commit] + []);
    Chain(s0, Stage(NEWER), s1, [PersistBdk] + ([Commit] + []));
  }

  /** A new wallet gets there by itself. */
  lemma InterruptedArises()
    ensures Runs(NEW_SYSTEM, BOOT + FLUSH_OLDER + COMMIT_NEWER)
    ensures After(NEW_SYSTEM, BOOT + FLUSH_OLDER + COMMIT_NEWER) == Interrupted() && Inv(Interrupted())
  {
    StartedAndDropped(NEW_SYSTEM);
    OlderFlushed();
    RunsInTurn(NEW_SYSTEM, BOOT, FLUSH_OLDER);
    NewerCommitted();
    RunsInTurn(NEW_SYSTEM, BOOT + FLUSH_OLDER, COMMIT_NEWER);
    RunKeeps(NEW_SYSTEM, BOOT + FLUSH_OLDER + COMMIT_NEWER);
  }

  lemma InterruptedRegresses()
    ensures Runs(Interrupted(), [Crash] + START)
    ensures After(Interrupted(), [Crash] + START).db == Persist(Interrupted().db, OLDER)
  {
    var s := Interrupted();
    Started(s.(process := Down));
    Chain(s, Crash, s.(process := Down), START);
  }

  lemma HashesOf()
    ensures Persist(EMPTY_STORE, NEWER).blocks == map[7 := "bb"]
    ensures Persist(Persist(EMPTY_STORE, NEWER), OLDER).blocks == map[7 := "aa"]
  {
    assert PersistBlocks(map[], NEWER.blocks) == map[7 := "bb"];
    assert PersistBlocks(map[7 := "bb"], OLDER.blocks) == map[7 := "aa"];
  }

  /** There, a crash lets recovery write the older block hash back. */
  lemma BlockHashCanRegress()
    ensures var run := BOOT + FLUSH_OLDER + COMMIT_NEWER;
      && Runs(NEW_SYSTEM, run) && After(NEW_SYSTEM, run).db.blocks == map[7 := "bb"]
      && Runs(NEW_SYSTEM, run + ([Crash] + START))
      && After(NEW_SYSTEM, run + ([Crash] + START)).db.blocks == map[7 := "aa"]
  {
    InterruptedArises();
    InterruptedRegresses();
    RunsInTurn(NEW_SYSTEM, BOOT + FLUSH_OLDER + COMMIT_NEWER, [Crash] + START);
    HashesOf();
  }
}
