/** The shared operation log of a multisig wallet, applied by each cosigner in order and once. */
module OperationLog {

  import opened Common

  datatype OperationStatus = Pending | Approved | Discarded

  /** Operation k of the hub is log[k - 1]. */
  type Log = seq<OperationStatus>

  /** The part of the local database that operations change, committed together. */
  datatype Local = Local(applied: seq<nat>, last: nat)

  const NOTHING_APPLIED := Local([], 0)

  /** The approved operations among the first n, in order. */
  function ApprovedPrefix(log: Log, n: nat): seq<nat>
    requires n <= |log|
  {
    if n == 0 then []
    else ApprovedPrefix(log, n - 1) + (if log[n - 1].Approved? then [n] else [])
  }

  /** The database reflects the log up to the local index, each operation once and in order. */
  predicate InSync(log: Log, db: Local)
  {
    db.last <= |log| && db.applied == ApprovedPrefix(log, db.last)
  }

  /** Handling an operation whose outcome is known: apply it if approved, and move the index to it. */
  function Handled(log: Log, db: Local, i: nat): Local
    requires 1 <= i <= |log|
  {
    match log[i - 1]
    case Pending => db
    case Approved => Local(db.applied + [i], i)
    case Discarded => db.(last := i)
  }

  // ---------------------------------------------------------------- which operations may be handled

  ghost predicate NoneApproved(log: Log, after: nat, upTo: nat)
  {
    forall k | after <= k < upTo && k < |log| :: !log[k].Approved?
  }

  /** Handling operation i next leaves the database in sync. */
  ghost predicate InOrder(log: Log, last: nat, i: nat)
    requires 1 <= i <= |log|
  {
    if i > last then NoneApproved(log, last, i - 1)
    else log[i - 1].Discarded? && NoneApproved(log, i, last)
  }

  lemma {:induction false} PrefixGrows(log: Log, a: nat, b: nat)
    requires a <= b <= |log|
    ensures ApprovedPrefix(log, a) <= ApprovedPrefix(log, b)
    ensures ApprovedPrefix(log, a) == ApprovedPrefix(log, b) <==> NoneApproved(log, a, b)
    decreases b
  {
    if a < b {
      PrefixGrows(log, a, b - 1);
      if log[b - 1].Approved? {
        assert |ApprovedPrefix(log, b)| > |ApprovedPrefix(log, a)|;
      } else {
        assert NoneApproved(log, a, b) <==> NoneApproved(log, a, b - 1);
      }
    }
  }

  /**
   * Handling any resolved operation keeps the database in sync exactly when it is the next one that
   * counts: nothing approved is skipped or handled again.
   */
  lemma HandledInSyncIff(log: Log, db: Local, i: nat)
    requires InSync(log, db) && 1 <= i <= |log| && !log[i - 1].Pending?
    ensures InSync(log, Handled(log, db, i)) <==> InOrder(log, db.last, i)
  {
    var before := ApprovedPrefix(log, i - 1);
    if i > db.last {
      PrefixGrows(log, db.last, i - 1);
      if log[i - 1].Approved? {
        assert db.applied + [i] == before + [i] <==> db.applied == before by {
          if db.applied + [i] == before + [i] {
            assert (db.applied + [i])[..|db.applied|] == (before + [i])[..|before|];
          }
        }
      }
    } else {
      PrefixGrows(log, i, db.last);
    }
  }

  /** The case of the regular synchronisation. */
  lemma NextIsInOrder(log: Log, db: Local)
    requires InSync(log, db) && db.last < |log|
    ensures InSync(log, Handled(log, db, db.last + 1))
  {
    if !log[db.last].Pending? {
      HandledInSyncIff(log, db, db.last + 1);
    }
  }

  /** Two synchronised cosigners never diverge: the one behind has applied a prefix of the other's. */
  lemma CosignersConverge(log: Log, a: Local, b: Local)
    requires InSync(log, a) && InSync(log, b) && a.last <= b.last
    ensures a.applied <= b.applied
    ensures a.last == b.last ==> a == b
  {
    PrefixGrows(log, a.last, b.last);
  }

  /** In order, and no operation twice. */
  ghost predicate Increasing(applied: seq<nat>)
  {
    forall i, j | 0 <= i < j < |applied| :: applied[i] < applied[j]
  }

  lemma {:induction false} AppliedInOrder(log: Log, n: nat)
    requires n <= |log|
    ensures Increasing(ApprovedPrefix(log, n)) && forall x | x in ApprovedPrefix(log, n) :: x <= n
  {
    if n > 0 {
      AppliedInOrder(log, n - 1);
      var before := ApprovedPrefix(log, n - 1);
      assert forall i | 0 <= i < |before| :: before[i] in before;
    }
  }

  /** An operation is in the database if and only if it was approved and the index has passed it. */
  lemma {:induction false} AppliedMember(log: Log, n: nat, i: nat)
    requires n <= |log|
    ensures i in ApprovedPrefix(log, n) <==> 1 <= i <= n && log[i - 1].Approved?
  {
    if n > 0 {
      AppliedMember(log, n - 1, i);
    }
  }

  // ---------------------------------------------------------------- runs

  /** Marks are what the hub knows of this cosigner's progress; they are not rolled back with its database. */
  datatype Sys = Sys(log: Log, marks: set<nat>, local: Local, backup: Local)

  /**
   * Others post and resolve operations. The cosigner handles the one after its index, responds to the
   * pending one so that it is resolved, or posts one that needs no approval. Its transaction may roll
   * back, with or without the hub's mark already set. It also takes and restores backups.
   */
  datatype Event =
    | Post(approved: bool)
    | Resolve(approved: bool)
    | Sync(marked: bool, commits: bool)
    | Respond(approved: bool, marked: bool, commits: bool)
    | Initiate(marked: bool, commits: bool)
    | Backup
    | Restore

  predicate NoPending(log: Log)
  {
    forall k | 0 <= k < |log| :: !log[k].Pending?
  }

  predicate PendingLast(log: Log)
  {
    log != [] && log[|log| - 1].Pending?
  }

  function Resolved(log: Log, approved: bool): Log
    requires PendingLast(log)
  {
    log[..|log| - 1] + [if approved then Approved else Discarded]
  }

  /** The hub takes a cosigner's response only to the operation that is next by its marks. */
  predicate HubLets(marks: set<nat>, i: nat)
  {
    forall k | 1 <= k < i :: k in marks
  }

  function Processed(s: Sys, i: nat, marked: bool, commits: bool): Sys
    requires 1 <= i <= |s.log|
  {
    if s.log[i - 1].Pending? then s
    else s.(marks := if marked || commits then s.marks + {i} else s.marks,
            local := if commits then Handled(s.log, s.local, i) else s.local)
  }

  function Step(s: Sys, e: Event): Sys
  {
    match e
    case Post(approved) =>
      if NoPending(s.log) then s.(log := s.log + [if approved then Approved else Pending]) else s
    case Resolve(approved) =>
      if PendingLast(s.log) then s.(log := Resolved(s.log, approved)) else s
    case Sync(marked, commits) =>
      if s.local.last < |s.log| then Processed(s, s.local.last + 1, marked, commits) else s
    case Respond(approved, marked, commits) =>
      if PendingLast(s.log) && HubLets(s.marks, |s.log|) then
        Processed(s.(log := Resolved(s.log, approved)), |s.log|, marked, commits)
      else s
    case Initiate(marked, commits) =>
      if NoPending(s.log) then Processed(s.(log := s.log + [Approved]), |s.log| + 1, marked, commits) else s
    case Backup => s.(backup := s.local)
    case Restore => s.(local := s.backup)
  }

  /** Only the newest operation can be pending, and none that is in the database. */
  predicate LogInv(s: Sys)
  {
    && s.local.last <= |s.log| && s.backup.last <= |s.log|
    && NoPending(s.log[..if s.log == [] then 0 else |s.log| - 1])
    && (PendingLast(s.log) ==> s.local.last < |s.log| && s.backup.last < |s.log|)
  }

  lemma PendingIsLast(s: Sys, i: nat)
    requires LogInv(s) && 1 <= i <= |s.log| && s.log[i - 1].Pending?
    ensures i == |s.log|
  {
    assert forall k | 0 <= k < |s.log| - 1 :: s.log[..|s.log| - 1][k] == s.log[k];
  }

  predicate Inv(s: Sys)
  {
    LogInv(s) && InSync(s.log, s.local) && InSync(s.log, s.backup)
  }

  /** No approved operation that the hub holds as processed is still missing from the database. */
  ghost predicate NothingAhead(s: Sys)
  {
    forall k | k in s.marks && s.local.last < k < |s.log| :: !s.log[k - 1].Approved?
  }

  /** Before a response nothing is marked ahead of the index; before an own operation nothing is open. */
  ghost predicate Orderly(s: Sys, e: Event)
  {
    && (e.Respond? && e.commits && PendingLast(s.log) && HubLets(s.marks, |s.log|) ==> NothingAhead(s))
    && (e.Initiate? && e.commits && NoPending(s.log) ==> NoneApproved(s.log, s.local.last, |s.log|))
  }

  lemma {:induction false} PrefixAgrees(a: Log, b: Log, n: nat)
    requires n <= |a| && n <= |b| && a[..n] == b[..n]
    ensures ApprovedPrefix(a, n) == ApprovedPrefix(b, n)
  {
    if n > 0 {
      assert a[..n][n - 1] == b[..n][n - 1];
      assert a[..n - 1] == a[..n][..n - 1] && b[..n - 1] == b[..n][..n - 1];
      PrefixAgrees(a, b, n - 1);
    }
  }

  /** A log that only its pending end tells from the old one keeps what reflects the old one. */
  lemma LogChangeKeepsInv(s: Sys, log: Log)
    requires Inv(s) && |log| >= |s.log|
    requires NoPending(log[..if log == [] then 0 else |log| - 1])
    requires forall k | 0 <= k < |s.log| && !s.log[k].Pending? :: log[k] == s.log[k]
    requires |log| > |s.log| || !PendingLast(log)
    ensures Inv(s.(log := log))
  {
    forall k | 0 <= k < |s.log| && (k < s.local.last || k < s.backup.last) ensures log[k] == s.log[k] {
      assert k < |s.log| - 1 ==> s.log[..|s.log| - 1][k] == s.log[k];
    }
    PrefixAgrees(s.log, log, s.local.last);
    PrefixAgrees(s.log, log, s.backup.last);
  }

  lemma PostKeepsInv(s: Sys, status: OperationStatus)
    requires Inv(s) && NoPending(s.log)
    ensures Inv(s.(log := s.log + [status]))
  {
    assert (s.log + [status])[..|s.log|] == s.log;
    LogChangeKeepsInv(s, s.log + [status]);
  }

  lemma ResolveKeepsInv(s: Sys, approved: bool)
    requires Inv(s) && PendingLast(s.log)
    ensures Inv(s.(log := Resolved(s.log, approved)))
  {
    assert Resolved(s.log, approved)[..|s.log| - 1] == s.log[..|s.log| - 1];
    LogChangeKeepsInv(s, Resolved(s.log, approved));
  }

  lemma ProcessedKeepsInv(s: Sys, i: nat, marked: bool, commits: bool)
    requires Inv(s) && 1 <= i <= |s.log|
    requires commits && !s.log[i - 1].Pending? ==> InOrder(s.log, s.local.last, i)
    ensures Inv(Processed(s, i, marked, commits))
  {
    if !s.log[i - 1].Pending? {
      HandledInSyncIff(s.log, s.local, i);
    }
  }

  /** What the hub's guard makes of the order: only marks ahead of the index can put it out. */
  lemma LetInOrderIff(s: Sys)
    requires s.local.last < |s.log| && HubLets(s.marks, |s.log|)
    ensures InOrder(s.log, s.local.last, |s.log|) <==> NothingAhead(s)
  {
    if NothingAhead(s) {
      forall k | s.local.last <= k < |s.log| - 1 ensures !s.log[k].Approved? {
        assert k + 1 in s.marks;
      }
    }
  }

  lemma NoneApprovedAgrees(a: Log, b: Log, after: nat, upTo: nat)
    requires upTo <= |a| && upTo <= |b| && forall k | after <= k < upTo :: a[k] == b[k]
    ensures NoneApproved(a, after, upTo) <==> NoneApproved(b, after, upTo)
  {
  }

  lemma RespondInOrderIff(s: Sys, approved: bool)
    requires Inv(s) && PendingLast(s.log) && HubLets(s.marks, |s.log|)
    ensures InOrder(Resolved(s.log, approved), s.local.last, |s.log|) <==> NothingAhead(s)
  {
    LetInOrderIff(s);
    NoneApprovedAgrees(s.log, Resolved(s.log, approved), s.local.last, |s.log| - 1);
  }

  lemma InitiateInOrderIff(s: Sys)
    requires Inv(s)
    ensures InOrder(s.log + [Approved], s.local.last, |s.log| + 1) <==>
            NoneApproved(s.log, s.local.last, |s.log|)
  {
    NoneApprovedAgrees(s.log, s.log + [Approved], s.local.last, |s.log|);
  }

  lemma PostStep(s: Sys, approved: bool)
    requires Inv(s)
    ensures Inv(Step(s, Post(approved)))
  {
    if NoPending(s.log) {
      PostKeepsInv(s, if approved then Approved else Pending);
    }
  }

  lemma ResolveStep(s: Sys, approved: bool)
    requires Inv(s)
    ensures Inv(Step(s, Resolve(approved)))
  {
    if PendingLast(s.log) {
      ResolveKeepsInv(s, approved);
    }
  }

  lemma SyncStep(s: Sys, marked: bool, commits: bool)
    requires Inv(s)
    ensures Inv(Step(s, Sync(marked, commits)))
  {
    if s.local.last < |s.log| {
      ProcessedKeepsInv(s, s.local.last + 1, marked, commits);
    }
  }

  lemma RespondStep(s: Sys, approved: bool, marked: bool, commits: bool)
    requires Inv(s) && Orderly(s, Respond(approved, marked, commits))
    ensures Inv(Step(s, Respond(approved, marked, commits)))
  {
    if PendingLast(s.log) && HubLets(s.marks, |s.log|) {
      ResolveKeepsInv(s, approved);
      RespondInOrderIff(s, approved);
      ProcessedKeepsInv(s.(log := Resolved(s.log, approved)), |s.log|, marked, commits);
    }
  }

  lemma InitiateStep(s: Sys, marked: bool, commits: bool)
    requires Inv(s) && Orderly(s, Initiate(marked, commits))
    ensures Inv(Step(s, Initiate(marked, commits)))
  {
    if NoPending(s.log) {
      PostKeepsInv(s, Approved);
      InitiateInOrderIff(s);
      ProcessedKeepsInv(s.(log := s.log + [Approved]), |s.log| + 1, marked, commits);
    }
  }

  lemma StepKeepsInv(s: Sys, e: Event)
    requires Inv(s) && Orderly(s, e)
    ensures Inv(Step(s, e))
  {
    match e
    case Post(approved) => PostStep(s, approved);
    case Resolve(approved) => ResolveStep(s, approved);
    case Sync(marked, commits) => SyncStep(s, marked, commits);
    case Respond(approved, marked, commits) => RespondStep(s, approved, marked, commits);
    case Initiate(marked, commits) => InitiateStep(s, marked, commits);
    case Backup =>
    case Restore =>
  }

  ghost predicate OrderlyRun(s: Sys, events: seq<Event>)
    decreases |events|
  {
    events == [] || (Orderly(s, events[0]) && OrderlyRun(Step(s, events[0]), events[1..]))
  }

  function After(s: Sys, events: seq<Event>): Sys
    decreases |events|
  {
    if events == [] then s else After(Step(s, events[0]), events[1..])
  }

  lemma {:induction false} RunKeepsInv(s: Sys, events: seq<Event>)
    requires Inv(s) && OrderlyRun(s, events)
    ensures Inv(After(s, events))
    decreases |events|
  {
    if events != [] {
      StepKeepsInv(s, events[0]);
      RunKeepsInv(Step(s, events[0]), events[1..]);
    }
  }

  /**
   * After any sequence of operations, crashes, retries, rollbacks whose hub mark survived and restored
   * backups, the database holds each approved operation up to its index once, in order, and no other.
   */
  lemma ExactlyOnce(s: Sys, events: seq<Event>, i: nat)
    requires Inv(s) && OrderlyRun(s, events)
    ensures var t := After(s, events);
      && InSync(t.log, t.local) && Increasing(t.local.applied)
      && (i in t.local.applied <==> 1 <= i <= t.local.last && t.log[i - 1].Approved?)
  {
    RunKeepsInv(s, events);
    AppliedInOrder(After(s, events).log, After(s, events).local.last);
    AppliedMember(After(s, events).log, After(s, events).local.last, i);
  }

  // ---------------------------------------------------------------- when runs are orderly

  /** No rollback after a mark, no restored backup, and own operations only when up to date. */
  predicate Careful(s: Sys, e: Event)
  {
    match e
    case Sync(marked, commits) => marked ==> commits
    case Respond(_, marked, commits) => marked ==> commits
    case Initiate(marked, commits) => s.local.last == |s.log| && (marked ==> commits)
    case Restore => false
    case _ => true
  }

  predicate CarefulRun(s: Sys, events: seq<Event>)
    decreases |events|
  {
    events == [] || (Careful(s, events[0]) && CarefulRun(Step(s, events[0]), events[1..]))
  }

  predicate MarksWithin(s: Sys)
  {
    forall k | k in s.marks :: k <= s.local.last
  }

  /** Such a run never brings the marks ahead of the index, and so is orderly. */
  lemma {:induction false} CarefulIsOrderly(s: Sys, events: seq<Event>)
    requires Inv(s) && MarksWithin(s) && CarefulRun(s, events)
    ensures OrderlyRun(s, events) && MarksWithin(After(s, events))
    decreases |events|
  {
    if events != [] {
      assert Orderly(s, events[0]);
      StepKeepsInv(s, events[0]);
      CarefulIsOrderly(Step(s, events[0]), events[1..]);
    }
  }

  /** A committed response keeps the database in sync exactly when nothing is marked ahead of its index. */
  lemma RespondInSyncIff(s: Sys, approved: bool, marked: bool)
    requires Inv(s) && PendingLast(s.log) && HubLets(s.marks, |s.log|)
    ensures var t := Step(s, Respond(approved, marked, true));
      InSync(t.log, t.local) <==> NothingAhead(s)
  {
    var resolved := s.(log := Resolved(s.log, approved));
    ResolveKeepsInv(s, approved);
    RespondInOrderIff(s, approved);
    HandledInSyncIff(resolved.log, s.local, |s.log|);
  }

  /** Posting an operation of one's own does so exactly when no approved one is still to be handled. */
  lemma InitiateInSyncIff(s: Sys, marked: bool)
    requires Inv(s) && NoPending(s.log)
    ensures var t := Step(s, Initiate(marked, true));
      InSync(t.log, t.local) <==> NoneApproved(s.log, s.local.last, |s.log|)
  {
    PostKeepsInv(s, Approved);
    InitiateInOrderIff(s);
    HandledInSyncIff(s.log + [Approved], s.local, |s.log| + 1);
  }

  /** A mark that outlived the rollback of its transaction lets the next response skip the operation. */
  lemma SkippingArises()
    ensures var start := Sys([], {}, NOTHING_APPLIED, NOTHING_APPLIED);
      var t := After(start, [Post(false), Resolve(true), Sync(true, false), Post(false), Respond(true, true, true)]);
      Inv(start) && t.log == [Approved, Approved] && t.local == Local([2], 2)
  {
    var start := Sys([], {}, NOTHING_APPLIED, NOTHING_APPLIED);
    var marked := Sys([Approved], {1}, NOTHING_APPLIED, NOTHING_APPLIED);
    var pending := Sys([Approved, Pending], {1}, NOTHING_APPLIED, NOTHING_APPLIED);
    RollbackKeepsMark();
    FirstStep(start, Post(false), [Resolve(true), Sync(true, false), Post(false), Respond(true, true, true)]);
    FirstStep(Step(start, Post(false)), Resolve(true), [Sync(true, false), Post(false), Respond(true, true, true)]);
    FirstStep(Step(Step(start, Post(false)), Resolve(true)), Sync(true, false),
              [Post(false), Respond(true, true, true)]);
    FirstStep(marked, Post(false), [Respond(true, true, true)]);
    ResponseSkips();
    FirstStep(pending, Respond(true, true, true), []);
  }

  lemma FirstStep(s: Sys, e: Event, rest: seq<Event>)
    ensures After(s, [e] + rest) == After(Step(s, e), rest)
  {
    assert ([e] + rest)[1..] == rest;
  }

  lemma RollbackKeepsMark()
    ensures var start := Sys([], {}, NOTHING_APPLIED, NOTHING_APPLIED);
      Step(Step(Step(start, Post(false)), Resolve(true)), Sync(true, false)) ==
      Sys([Approved], {1}, NOTHING_APPLIED, NOTHING_APPLIED)
  {
    var posted := Sys([Pending], {}, NOTHING_APPLIED, NOTHING_APPLIED);
    PostedOne();
    ResolvedOne(posted);
    RolledBack(posted.(log := [Approved]));
    assert {} + {1} == {1};
  }

  lemma PostedOne()
    ensures Step(Sys([], {}, NOTHING_APPLIED, NOTHING_APPLIED), Post(false)) ==
            Sys([Pending], {}, NOTHING_APPLIED, NOTHING_APPLIED)
  {
    assert [] + [Pending] == [Pending];
  }

  lemma ResolvedOne(s: Sys)
    requires s.log == [Pending]
    ensures Step(s, Resolve(true)) == s.(log := [Approved])
  {
    assert [Pending][..0] + [Approved] == [Approved];
  }

  lemma RolledBack(s: Sys)
    requires s.local.last < |s.log| && !s.log[s.local.last].Pending?
    ensures Step(s, Sync(true, false)) == s.(marks := s.marks + {s.local.last + 1})
  {
  }

  lemma ResponseSkips()
    ensures var marked := Sys([Approved], {1}, NOTHING_APPLIED, NOTHING_APPLIED);
      var pending := Sys([Approved, Pending], {1}, NOTHING_APPLIED, NOTHING_APPLIED);
      Step(marked, Post(false)) == pending &&
      Step(pending, Respond(true, true, true)) == Sys([Approved, Approved], {1, 2}, Local([2], 2), NOTHING_APPLIED)
  {
    var log := [Approved, Pending];
    assert log[..1] + [Approved] == [Approved, Approved];
    assert {1} + {2} == {1, 2};
  }

  /** A log with the same or more operations, all but the last one resolved. */
  lemma LogChangeKeepsLogInv(s: Sys, log: Log)
    requires LogInv(s) && |log| >= |s.log| && (|log| > |s.log| || !PendingLast(log))
    requires NoPending(log[..if log == [] then 0 else |log| - 1])
    ensures LogInv(s.(log := log))
  {
  }

  lemma PostKeepsLogInv(s: Sys, status: OperationStatus)
    requires LogInv(s) && NoPending(s.log)
    ensures LogInv(s.(log := s.log + [status]))
  {
    assert (s.log + [status])[..|s.log|] == s.log;
    LogChangeKeepsLogInv(s, s.log + [status]);
  }

  lemma ResolveKeepsLogInv(s: Sys, approved: bool)
    requires LogInv(s) && PendingLast(s.log)
    ensures LogInv(s.(log := Resolved(s.log, approved)))
  {
    assert Resolved(s.log, approved)[..|s.log| - 1] == s.log[..|s.log| - 1];
    LogChangeKeepsLogInv(s, Resolved(s.log, approved));
  }

  /** The index does not fall, and nothing at or below it is applied any more. */
  ghost predicate MovesOn(s: Sys, t: Sys)
  {
    && LogInv(t) && s.local.last <= t.local.last
    && forall k | k <= s.local.last && k !in s.local.applied :: k !in t.local.applied
  }

  lemma ProcessedMovesOn(s: Sys, i: nat, marked: bool, commits: bool)
    requires LogInv(s) && s.local.last < i <= |s.log|
    ensures MovesOn(s, Processed(s, i, marked, commits))
  {
  }

  lemma RespondMovesOn(s: Sys, approved: bool, marked: bool, commits: bool)
    requires LogInv(s)
    ensures MovesOn(s, Step(s, Respond(approved, marked, commits)))
  {
    if PendingLast(s.log) && HubLets(s.marks, |s.log|) {
      ResolveKeepsLogInv(s, approved);
      ProcessedMovesOn(s.(log := Resolved(s.log, approved)), |s.log|, marked, commits);
    }
  }

  lemma InitiateMovesOn(s: Sys, marked: bool, commits: bool)
    requires LogInv(s)
    ensures MovesOn(s, Step(s, Initiate(marked, commits)))
  {
    if NoPending(s.log) {
      PostKeepsLogInv(s, Approved);
      ProcessedMovesOn(s.(log := s.log + [Approved]), |s.log| + 1, marked, commits);
    }
  }

  lemma StepMovesOn(s: Sys, e: Event)
    requires LogInv(s) && !e.Restore?
    ensures MovesOn(s, Step(s, e))
  {
    match e
    case Post(approved) =>
      if NoPending(s.log) { PostKeepsLogInv(s, if approved then Approved else Pending); }
    case Resolve(approved) =>
      if PendingLast(s.log) { ResolveKeepsLogInv(s, approved); }
    case Sync(marked, commits) =>
      if s.local.last < |s.log| { ProcessedMovesOn(s, s.local.last + 1, marked, commits); }
    case Respond(approved, marked, commits) => RespondMovesOn(s, approved, marked, commits);
    case Initiate(marked, commits) => InitiateMovesOn(s, marked, commits);
    case Backup =>
  }

  /** A skipped operation stays lost, whatever the cosigner does but restore a backup. */
  lemma {:induction false} SkippedStaysLost(s: Sys, events: seq<Event>, i: nat)
    requires LogInv(s) && i <= s.local.last && i !in s.local.applied
    requires forall e | e in events :: !e.Restore?
    ensures i !in After(s, events).local.applied && i <= After(s, events).local.last
    decreases |events|
  {
    if events != [] {
      assert events[0] in events;
      StepMovesOn(s, events[0]);
      SkippedStaysLost(Step(s, events[0]), events[1..], i);
    }
  }

  /**
   * Responding although an approved operation lies between the index and the pending one: whatever follows
   * but a restored backup, that operation is never applied, and the index stays past it.
   */
  lemma SkippingLosesOperation(s: Sys, approved: bool, marked: bool, i: nat, later: seq<Event>)
    requires Inv(s) && PendingLast(s.log) && HubLets(s.marks, |s.log|)
    requires s.local.last < i < |s.log| && s.log[i - 1].Approved?
    requires forall e | e in later :: !e.Restore?
    ensures var next := Step(s, Respond(approved, marked, true));
      && i in ApprovedPrefix(next.log, next.local.last)
      && i !in After(next, later).local.applied && i <= After(next, later).local.last
  {
    var next := Step(s, Respond(approved, marked, true));
    AppliedMember(s.log, s.local.last, i);
    StepMovesOn(s, Respond(approved, marked, true));
    assert next.local.last == |s.log|;
    AppliedMember(next.log, next.local.last, i);
    SkippedStaysLost(next, later, i);
  }

  /** What the regular synchronisation does, any number of times, crashes in between or not. */
  function Syncs(n: nat): seq<Event>
  {
    if n == 0 then [] else [Sync(true, true)] + Syncs(n - 1)
  }

  /** A cosigner catches up with a resolved log, whatever marks it has left on the hub before. */
  lemma {:induction false} SyncCatchesUp(s: Sys, n: nat)
    requires Inv(s) && NoPending(s.log) && s.local.last + n == |s.log|
    ensures var t := After(s, Syncs(n));
      t.log == s.log && t.local == Local(ApprovedPrefix(s.log, |s.log|), |s.log|)
    decreases n
  {
    if n > 0 {
      StepKeepsInv(s, Sync(true, true));
      assert !s.log[s.local.last].Pending?;
      SyncCatchesUp(Step(s, Sync(true, true)), n - 1);
      assert Syncs(n)[1..] == Syncs(n - 1);
    }
  }

  // ---------------------------------------------------------------- the cosigner's code

  /** The hub as one cosigner sees it. */
  class Hub {
    var log: Log
    var marks: set<nat>
    var responded: set<nat>

    constructor ()
      ensures log == [] && marks == {} && responded == {}
    {
      log, marks, responded := [], {}, {};
    }

    /** Marking twice is an error, which the caller tells apart. */
    method MarkOperationProcessed(i: nat) returns (alreadyMarked: bool)
      modifies this`marks
      ensures marks == old(marks) + {i} && (alreadyMarked <==> i in old(marks))
    {
      alreadyMarked := i in marks;
      marks := marks + {i};
    }

    /** Refused unless everything before is marked; the response may resolve the operation. */
    method RespondToOperation(i: nat, outcome: Option<bool>) returns (taken: bool)
      requires PendingLast(log) && i == |log|
      modifies this`log, this`responded
      ensures taken <==> HubLets(marks, i)
      ensures log == if taken && outcome.Some? then Resolved(old(log), outcome.value) else old(log)
      ensures responded == if taken then old(responded) + {i} else old(responded)
    {
      taken := HubLets(marks, i);
      if taken {
        responded := responded + {i};
        if outcome.Some? {
          log := log[..i - 1] + [if outcome.value then Approved else Discarded];
        }
      }
    }

    method PostApproved() returns (index: Option<nat>)
      modifies this`log
      ensures index == if NoPending(old(log)) then Some(|old(log)| + 1) else None
      ensures log == if NoPending(old(log)) then old(log) + [Approved] else old(log)
    {
      if !NoPending(log) {
        return None;
      }
      log := log + [Approved];
      index := Some(|log|);
    }
  }

  datatype Response = NotFound | NotPending | AlreadyResponded | NotNext | Taken

  class CosignerDb {
    const hub: Hub
    var applied: seq<nat>           // effects of operations, in the order they were applied
    var lastOperation: Option<nat>  // column of the backup information row, once there is one
    var backup: Local

    ghost function Contents(): Local
      reads this
    {
      Local(applied, LastProcessed())
    }

    ghost function State(): Sys
      reads this, hub
    {
      Sys(hub.log, hub.marks, Contents(), backup)
    }

    /** Without a stored index nothing has been processed. */
    function LastProcessed(): nat
      reads this
    {
      if lastOperation.Some? then lastOperation.value else 0
    }

    constructor (hub: Hub)
      ensures this.hub == hub && Contents() == backup == NOTHING_APPLIED
    {
      this.hub := hub;
      applied, lastOperation, backup := [], None, NOTHING_APPLIED;
    }

    /** A row update without an index leaves the stored one alone. */
    method UpdateBackupInfo(operation: Option<nat>)
      modifies this`lastOperation
      ensures lastOperation == if operation.Some? then operation else old(lastOperation)
    {
      if operation.Some? {
        lastOperation := operation;
      }
    }

    method MarkOperationAsProcessed(i: nat)
      modifies this`lastOperation, hub`marks
      ensures hub.marks == old(hub.marks) + {i} && lastOperation == Some(i)
    {
      // a mark that outlived a rollback is not an error
      var _ := hub.MarkOperationProcessed(i);
      UpdateBackupInfo(Some(i));
    }

    /** Handle one operation in one transaction, which may fail to commit. */
    method HandleOperation(i: nat, commits: bool)
      requires 1 <= i <= |hub.log|
      modifies this`applied, this`lastOperation, hub`marks
      ensures State() == Processed(old(State()), i, true, commits)
    {
      var savedApplied, savedLast := applied, lastOperation;
      match hub.log[i - 1] {
        case Pending =>
        case Approved =>
          applied := applied + [i];
          UpdateBackupInfo(None);
          MarkOperationAsProcessed(i);
        case Discarded =>
          MarkOperationAsProcessed(i);
      }
      if !commits {
        applied, lastOperation := savedApplied, savedLast;
      }
    }

    /** Fetch and handle the operation after the local index. */
    method SyncWithHub(commits: bool) returns (processed: Option<nat>)
      modifies this`applied, this`lastOperation, hub`marks
      ensures State() == Step(old(State()), Sync(true, commits))
      ensures processed == if old(Contents().last) < |hub.log| then Some(old(Contents().last) + 1) else None
    {
      var next := LastProcessed() + 1;
      if next > |hub.log| {
        return None;
      }
      HandleOperation(next, commits);
      UpdateBackupInfo(None);
      processed := Some(next);
    }

    /** Respond to any operation; the outcome is what the response makes of it on the hub, if anything. */
    method RespondToOperation(i: nat, outcome: Option<bool>, commits: bool) returns (r: Response)
      requires LogInv(State())
      modifies this`applied, this`lastOperation, hub
      ensures r.Taken? <==> && 1 <= i <= |old(hub.log)| && old(hub.log)[i - 1].Pending?
                            && i !in old(hub.responded) && HubLets(old(hub.marks), i)
      ensures State() == if r.Taken? && outcome.Some?
                         then Step(old(State()), Respond(outcome.value, true, commits)) else old(State())
      ensures r.Taken? ==> i in hub.responded
    {
      if i == 0 || i > |hub.log| {
        return NotFound;
      }
      if hub.log[i - 1] != Pending {
        return NotPending;
      }
      if i in hub.responded {
        return AlreadyResponded;
      }
      PendingIsLast(State(), i);
      var taken := hub.RespondToOperation(i, outcome);
      if !taken {
        return NotNext;
      }
      HandleOperation(i, commits);
      UpdateBackupInfo(None);
      r := Taken;
    }

    /** Post an operation that needs no approval, such as an issuance, and apply it at once. */
    method Initiate(commits: bool) returns (index: Option<nat>)
      modifies this`applied, this`lastOperation, hub
      ensures State() == Step(old(State()), Event.Initiate(true, commits))
      ensures index.Some? <==> NoPending(old(hub.log))
    {
      index := hub.PostApproved();
      if index.Some? {
        HandleOperation(index.value, commits);
      }
    }
  }
}
