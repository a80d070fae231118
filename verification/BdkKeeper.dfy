/** The wallet's persist, flush and start-up code, each proved to be a run of the crash model's steps. */
module BdkKeeper {

  import opened Common
  import opened BdkStore
  import opened BdkTables
  import opened BdkCrash

  class Keeper {
    var db: Store
    var txn: Option<Store>  // what the open transaction sees
    var dropPending: bool   // commit callback: take the pending buffer and remove the file
    var staged: ChangeSet
    var pending: ChangeSet
    var file: Option<ChangeSet>
    var tmp: Tmp

    /** The process between two operations. */
    ghost function State(): Sys
      reads this
    {
      Sys(db, file, tmp, Up(staged, pending, Idle))
    }

    /** The process while a transaction holds uncommitted Bitcoin wallet rows. */
    ghost predicate Written(before: Sys)
      reads this
    {
      && txn == Some(if pending == NO_CHANGES then db else Persist(db, pending))
      && dropPending == (pending != NO_CHANGES)
      && Step(before, BdkCrash.PersistBdk)
           == Some(Sys(db, file, tmp, Up(staged, pending, if pending == NO_CHANGES then Idle else Persisted)))
    }

    /** Bring the disk into memory: nothing staged, nothing buffered. */
    constructor (db: Store, file: Option<ChangeSet>, tmp: Tmp)
      ensures Sys(this.db, this.file, this.tmp, Down) == Sys(db, file, tmp, Down)
      ensures staged == NO_CHANGES && pending == NO_CHANGES
      ensures txn == None && !dropPending
    {
      this.db, this.file, this.tmp := db, file, tmp;
      staged, pending := NO_CHANGES, NO_CHANGES;
      txn, dropPending := None, false;
    }

    method PersistBdk()
      requires txn == Some(db) && !dropPending
      modifies this`staged, this`pending, this`txn, this`dropPending
      ensures Written(old(State()))
    {
      pending := Merge(pending, staged);
      staged := NO_CHANGES;
      if pending == NO_CHANGES {
        return;
      }
      var written := BdkTables.Written(txn.value, pending);
      txn := Some(written);
      dropPending := true;
    }

    /** Commit the open transaction and run its callback, or roll it back. */
    method Commit(succeeds: bool)
      requires txn.Some?
      modifies this
      ensures txn == None && !dropPending && staged == old(staged) && tmp == old(tmp)
      ensures db == if succeeds then old(txn).value else old(db)
      ensures pending == if succeeds && old(dropPending) then NO_CHANGES else old(pending)
      ensures file == if succeeds && old(dropPending) then None else old(file)
    {
      if succeeds {
        db := txn.value;
        if dropPending {
          pending := NO_CHANGES;
          file := None;
        }
      }
      txn, dropPending := None, false;
    }

    /** The single persist point of an operation. */
    method PersistAndCommit(succeeds: bool) returns (ghost events: seq<Event>)
      requires txn == Some(db) && !dropPending
      modifies this
      ensures txn == None && !dropPending
      ensures Runs(old(State()), events) && State() == After(old(State()), events)
      ensures BdkCrash.PersistBdk in events && staged == NO_CHANGES
      ensures var gathered := Merge(old(pending), old(staged));
        if gathered == NO_CHANGES then db == old(db) && file == old(file) && pending == NO_CHANGES
        else if succeeds then db == Persist(old(db), gathered) && file == None && pending == NO_CHANGES
        else db == old(db) && file == old(file) && pending == gathered
    {
      PersistBdk();
      ghost var written := Step(old(State()), BdkCrash.PersistBdk).value;
      ghost var buffered := pending;
      Commit(succeeds);
      ghost var rest: seq<Event> := [];
      if buffered != NO_CHANGES {
        rest := if succeeds then [BdkCrash.Commit, TakePending, RemoveFile] else [Rollback];
        if succeeds {
          CommittedTransaction(written);
        } else {
          RolledBackTransaction(written);
        }
      }
      events := [BdkCrash.PersistBdk] + rest;
      Chain(old(State()), BdkCrash.PersistBdk, written, rest);
    }

    /** Write the pending changes to disk, outside the transaction. */
    method FlushBdkPending() returns (ghost events: seq<Event>)
      modifies this`staged, this`pending, this`file, this`tmp
      ensures Runs(old(State()), events) && State() == After(old(State()), events)
      ensures pending == Merge(old(pending), old(staged)) && staged == NO_CHANGES
      ensures pending != NO_CHANGES ==> file == Some(pending) && tmp == NoTmp
    {
      pending := Merge(pending, staged);
      staged := NO_CHANGES;
      ghost var begun := Step(old(State()), BeginFlush).value;
      if pending == NO_CHANGES {
        Chain(old(State()), BeginFlush, begun, []);
        events := [BeginFlush] + [];
        return;
      }
      // drop a leaked temporary file, write the new one, rename it into place
      tmp := NoTmp;
      tmp := Complete(pending);
      file := Some(pending);
      tmp := NoTmp;
      ghost var whole := begun.(tmp := Complete(pending));
      Chain(whole, Rename, State(), []);
      Chain(begun, WriteAll, whole, [Rename] + []);
      Chain(old(State()), BeginFlush, begun, [WriteAll] + ([Rename] + []));
      events := [BeginFlush] + ([WriteAll] + ([Rename] + []));
    }

    /** Start-up: fold the recovery files into the tables, oldest first; drop them once committed. */
    method SetupBdk()
      requires txn == None && staged == NO_CHANGES && pending == NO_CHANGES
      modifies this
      ensures var disk := old(Sys(db, file, tmp, Down));
        Runs(disk, BOOT) && State() == After(disk, BOOT)
      ensures db == WithTmp(WithFile(old(db), old(file)), old(tmp)) && file == None && tmp == NoTmp
    {
      ghost var disk := Sys(db, file, tmp, Down);
      var candidates := [file, if tmp.Complete? then Some(tmp.changes) else None];
      txn := Some(db);
      var i := 0;
      while i < |candidates|
        invariant 0 <= i <= 2 && |candidates| == 2
        invariant db == old(db) && file == old(file) && tmp == old(tmp)
        invariant staged == NO_CHANGES && pending == NO_CHANGES
        invariant txn == Some(Folded(db, candidates[..i]))
      {
        if candidates[i].Some? {
          var written := BdkTables.Written(txn.value, candidates[i].value);
          txn := Some(written);
        }
        assert candidates[..i + 1] == candidates[..i] + [candidates[i]];
        i := i + 1;
      }
      assert candidates[..2] == [candidates[0]] + [candidates[1]];
      db := txn.value;
      txn, dropPending := None, false;
      file := None;
      tmp := NoTmp;
      StartedAndDropped(disk);
    }
  }

  /** Write the change sets that could be read, in order. */
  ghost function Folded(s: Store, candidates: seq<Option<ChangeSet>>): Store
  {
    if candidates == [] then s
    else
      var before := Folded(s, candidates[..|candidates| - 1]);
      WithFile(before, candidates[|candidates| - 1])
  }

  lemma CommittedTransaction(written: Sys)
    requires written.process.Up? && written.process.phase == Persisted
    ensures var p := written.process;
      && Runs(written, [Commit, TakePending, RemoveFile])
      && After(written, [Commit, TakePending, RemoveFile])
           == Sys(Persist(written.db, p.pending), None, written.tmp, Up(p.staged, NO_CHANGES, Idle))
  {
    var p := written.process;
    var s1 := written.(db := Persist(written.db, p.pending), process := p.(phase := Clearing));
    var s2 := s1.(process := Up(p.staged, NO_CHANGES, Removing));
    var s3 := s2.(file := None, process := Up(p.staged, NO_CHANGES, Idle));
    Chain(s2, RemoveFile, s3, []);
    Chain(s1, TakePending, s2, [RemoveFile] + []);
    Chain(written, Commit, s1, [TakePending] + ([RemoveFile] + []));
    assert [Commit] + ([TakePending] + ([RemoveFile] + [])) == [Commit, TakePending, RemoveFile];
  }

  lemma RolledBackTransaction(written: Sys)
    requires written.process.Up? && written.process.phase == Persisted
    ensures Runs(written, [Rollback])
    ensures After(written, [Rollback]) == written.(process := written.process.(phase := Idle))
  {
    Chain(written, Rollback, written.(process := written.process.(phase := Idle)), []);
    assert [Rollback] + [] == [Rollback];
  }
}
