/** What becomes of an operation once it is decided on, and of the database once a backup is restored. */
module OperationOutcomes {

  import opened Common
  import opened OperationLog

  /** No operation is taken back, and no outcome revised. */
  ghost predicate KeepsOutcomes(a: Log, b: Log)
  {
    |a| <= |b| && forall k | 0 <= k < |a| && !a[k].Pending? :: b[k] == a[k]
  }

  lemma StepKeepsOutcomes(s: Sys, e: Event)
    ensures KeepsOutcomes(s.log, Step(s, e).log)
  {
  }

  lemma {:induction false} RunKeepsOutcomes(s: Sys, events: seq<Event>)
    ensures KeepsOutcomes(s.log, After(s, events).log)
    decreases |events|
  {
    if events != [] {
      StepKeepsOutcomes(s, events[0]);
      RunKeepsOutcomes(Step(s, events[0]), events[1..]);
    }
  }

  /** The event decides on the pending operation, as approved or not. */
  predicate Decides(s: Sys, e: Event, approved: bool)
  {
    && PendingLast(s.log)
    && (e == Resolve(approved)
        || (e.Respond? && e.approved == approved && forall k | 1 <= k < |s.log| :: k in s.marks))
  }

  lemma DecidedLog(s: Sys, e: Event, approved: bool)
    requires Decides(s, e, approved)
    ensures Step(s, e).log == s.log[|s.log| - 1 := if approved then Approved else Discarded]
  {
    assert s.log[..|s.log| - 1] + [if approved then Approved else Discarded]
      == s.log[|s.log| - 1 := if approved then Approved else Discarded];
  }

  /**
   * An operation is decided on once and for all: however the cosigner goes on in order, an approved one is in
   * its database if and only if the index has passed it, and a refused one never is.
   */
  lemma DecisionStands(s: Sys, e: Event, approved: bool, later: seq<Event>)
    requires Inv(s) && Decides(s, e, approved) && Orderly(s, e) && OrderlyRun(Step(s, e), later)
    ensures var i, t := |s.log|, After(Step(s, e), later);
      && i <= |t.log| && t.log[i - 1] == (if approved then Approved else Discarded)
      && (i in t.local.applied <==> approved && i <= t.local.last)
  {
    DecidedLog(s, e, approved);
    StepKeepsInv(s, e);
    RunKeepsOutcomes(Step(s, e), later);
    ExactlyOnce(Step(s, e), later, |s.log|);
  }

  /** A posted operation that needs no approval is applied once the index passes it; any other one not yet. */
  lemma PostedIsNext(s: Sys, approved: bool, later: seq<Event>)
    requires Inv(s) && NoPending(s.log) && OrderlyRun(Step(s, Post(approved)), later)
    ensures var i, t := |s.log| + 1, After(Step(s, Post(approved)), later);
      && i <= |t.log|
      && (approved ==> (i in t.local.applied <==> i <= t.local.last))
      && (t.log[i - 1].Pending? ==> !approved && i !in t.local.applied && t.local.last < i)
  {
    StepKeepsInv(s, Post(approved));
    RunKeepsOutcomes(Step(s, Post(approved)), later);
    RunKeepsInv(Step(s, Post(approved)), later);
    ExactlyOnce(Step(s, Post(approved)), later, |s.log| + 1);
    if After(Step(s, Post(approved)), later).log[|s.log|].Pending? {
      PendingIsLast(After(Step(s, Post(approved)), later), |s.log| + 1);
    }
  }

  lemma {:induction false} KeepsBackup(s: Sys, events: seq<Event>)
    requires forall e | e in events :: !e.Backup?
    ensures After(s, events).backup == s.backup
    decreases |events|
  {
    if events != [] {
      assert events[0] in events;
      KeepsBackup(Step(s, events[0]), events[1..]);
    }
  }

  lemma {:induction false} OneMoreEvent(s: Sys, events: seq<Event>, e: Event)
    ensures After(s, events + [e]) == Step(After(s, events), e)
    decreases |events|
  {
    if events == [] {
      FirstStep(s, e, []);
      assert [e] + [] == [] + [e];
    } else {
      OneMoreEvent(Step(s, events[0]), events[1..], e);
      assert (events + [e])[1..] == events[1..] + [e];
    }
  }

  /** Restoring brings back the database of the latest backup, whatever happened in between. */
  lemma RestoreReturns(s: Sys, between: seq<Event>)
    requires forall e | e in between :: !e.Backup?
    ensures After(s, [Backup] + between + [Restore]).local == s.local
    ensures After(s, [Backup] + between + [Restore]).log == After(s, [Backup] + between).log
  {
    FirstStep(s, Backup, between);
    KeepsBackup(Step(s, Backup), between);
    OneMoreEvent(s, [Backup] + between, Restore);
  }
}
