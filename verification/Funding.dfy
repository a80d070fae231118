/** The Bitcoin side of a transfer: empty outputs are added until the transaction can be paid for. */
module Funding {

  import opened Common
  import opened Assignments
  import opened Selection
  import opened Issuance

  /** What building the transaction over a set of inputs comes to, with or without bitcoin change. */
  datatype Answer = Built(change: bool) | InsufficientBitcoins | OtherFailure

  datatype FundingError = NoSlots | BuildFailed

  function BtcKey(): LocalUnspent -> nat
  {
    (u: LocalUnspent) => u.btcAmount
  }

  function ToSet(outs: seq<Outpoint>): set<Outpoint>
  {
    set o | o in outs
  }

  /** Outputs that host nothing and are not used yet. */
  function Free(us: seq<LocalUnspent>, used: seq<Outpoint>): seq<LocalUnspent>
  {
    GetAvailableAllocations(us, used, 0)
  }

  /** All inputs beyond the given ones were free, and each was the largest one left when it was added. */
  ghost predicate Grown(us: seq<LocalUnspent>, start: seq<Outpoint>, used: seq<Outpoint>)
  {
    && start <= used
    && forall i | |start| <= i < |used| :: LargestFree(us, used[..i], used[i])
  }

  ghost predicate LargestFree(us: seq<LocalUnspent>, used: seq<Outpoint>, o: Outpoint)
  {
    exists u :: u in Free(us, used) && u.outpoint == o && forall v | v in Free(us, used) :: v.btcAmount <= u.btcAmount
  }

  lemma OneMoreInput(us: seq<LocalUnspent>, start: seq<Outpoint>, used: seq<Outpoint>, o: Outpoint)
    requires Grown(us, start, used) && LargestFree(us, used, o)
    ensures Grown(us, start, used + [o])
  {
    forall i | |start| <= i < |used| + 1
      ensures LargestFree(us, (used + [o])[..i], (used + [o])[i])
    {
      if i < |used| {
        assert (used + [o])[..i] == used[..i];
      } else {
        assert (used + [o])[..i] == used;
      }
    }
  }

  /** The last of the outputs sorted by value. */
  method Largest(us: seq<LocalUnspent>) returns (u: LocalUnspent)
    requires us != []
    ensures u in us && forall v | v in us :: v.btcAmount <= u.btcAmount
  {
    var sorted := SortByKey(us, BtcKey());
    SortByKeyCorrect(us, BtcKey());
    SameMembers(sorted, us);
    assert |sorted| == |multiset(sorted)| == |multiset(us)| == |us|;
    u := sorted[|sorted| - 1];
    forall v | v in us
      ensures v.btcAmount <= u.btcAmount
    {
      var i :| 0 <= i < |sorted| && sorted[i] == v;
      assert BtcKey()(sorted[i]) <= BtcKey()(u);
    }
  }

  /** What the loop may return: inputs that can be built, or the reason why no more could be added. */
  ghost predicate Outcome(us: seq<LocalUnspent>, start: seq<Outpoint>, build: set<Outpoint> -> Answer,
                          r: Result<seq<Outpoint>, FundingError>)
  {
    match r
    case Success(used) => Grown(us, start, used) && build(ToSet(used)).Built?
    case Failure(NoSlots) =>
      exists all :: Grown(us, start, all) && Free(us, all) == [] && build(ToSet(all)).InsufficientBitcoins?
    case Failure(BuildFailed) => exists some :: Grown(us, start, some) && build(ToSet(some)).OtherFailure?
  }

  /**
   * Add the largest free output as long as the inputs are worth too little. What is returned can be built;
   * it fails for want of outputs only when all of them together are not enough.
   */
  method TryPreparePsbt(us: seq<LocalUnspent>, start: seq<Outpoint>, build: set<Outpoint> -> Answer)
    returns (r: Result<seq<Outpoint>, FundingError>)
    requires DistinctOutpoints(us)
    ensures Outcome(us, start, build, r)
  {
    var used := start;
    while true
      invariant Grown(us, start, used)
      decreases |Free(us, used)|
    {
      match build(ToSet(used)) {
        case Built(_) => return Success(used);
        case OtherFailure => return Failure(BuildFailed);
        case InsufficientBitcoins =>
          var free := Free(us, used);
          if free == [] {
            return Failure(NoSlots);
          }
          var u := Largest(free);
          OneFewer(us, used, 0, u);
          assert LargestFree(us, used, u.outpoint);
          OneMoreInput(us, start, used, u.outpoint);
          used := used + [u.outpoint];
      }
    }
  }

  // ---------------------------------------------------------------- when funding succeeds

  /** Building depends on enough value alone: more inputs never turn success into want. */
  ghost predicate Monotone(build: set<Outpoint> -> Answer)
  {
    && (forall s: set<Outpoint> :: !build(s).OtherFailure?)
    && (forall s: set<Outpoint>, t: set<Outpoint> :: s <= t && build(s).Built? ==> build(t).Built?)
  }

  /** Every input there is: those chosen for their assets and all free outputs. */
  function Everything(us: seq<LocalUnspent>, start: seq<Outpoint>): set<Outpoint>
  {
    ToSet(start) + set u | u in Free(us, start) :: u.outpoint
  }

  lemma {:induction false} GrownWithinEverything(us: seq<LocalUnspent>, start: seq<Outpoint>, used: seq<Outpoint>)
    requires Grown(us, start, used)
    ensures ToSet(used) <= Everything(us, start)
    ensures Free(us, used) == [] ==> ToSet(used) == Everything(us, start)
  {
    forall o | o in used
      ensures o in Everything(us, start)
    {
      var i :| 0 <= i < |used| && used[i] == o;
      if i >= |start| {
        var u :| u in Free(us, used[..i]) && u.outpoint == o;
        AvailableMember(us, used[..i], 0, u);
        assert forall p | p in start :: p in used[..i];
        AvailableMember(us, start, 0, u);
      } else {
        assert o == start[i];
      }
    }
    if Free(us, used) == [] {
      forall u | u in Free(us, start)
        ensures u.outpoint in used
      {
        AvailableMember(us, start, 0, u);
        AvailableMember(us, used, 0, u);
      }
      assert forall o | o in start :: o in used;
    }
  }

  /** With such a builder the loop succeeds exactly when all inputs there are would be enough. */
  lemma FundedIffEnough(us: seq<LocalUnspent>, start: seq<Outpoint>, build: set<Outpoint> -> Answer,
                        r: Result<seq<Outpoint>, FundingError>)
    requires Monotone(build) && Outcome(us, start, build, r)
    ensures r.Success? <==> build(Everything(us, start)).Built?
  {
    if r.Success? {
      GrownWithinEverything(us, start, r.value);
    } else if r.error.NoSlots? {
      var all :| Grown(us, start, all) && Free(us, all) == [] && build(ToSet(all)).InsufficientBitcoins?;
      GrownWithinEverything(us, start, all);
    }
  }
}
