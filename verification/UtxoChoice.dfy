/** Which outputs can host a new allocation, and which of them is chosen. */
module UtxoChoice {

  import opened Common
  import opened Assignments
  import opened Selection
  import opened Issuance

  function Live(): LocalRgbAllocation -> int
  {
    (a: LocalRgbAllocation) => if a.status.Failed? then 0 else 1
  }

  /** Room for one more: few enough allocations that did not fail, and none of a batch still being prepared. */
  ghost predicate HasRoom(u: LocalUnspent, exclude: seq<Outpoint>, maxAllocations: nat)
  {
    && u.exists_ && !u.pendingWitness && u.outpoint !in exclude
    && Sum(u.allocations, Live()) + u.pendingBlinded <= maxAllocations
    && !(exists a :: a in u.allocations && !a.incoming && (a.status.Initiated? || a.status.WaitingCounterparty?))
  }

  /** v is u with its failed allocations forgotten. */
  ghost predicate WithoutFailed(v: LocalUnspent, u: LocalUnspent)
  {
    && v == u.(allocations := v.allocations) && Subsequence(v.allocations, u.allocations)
    && |v.allocations| == Sum(u.allocations, Live())
    && forall a :: a in v.allocations <==> a in u.allocations && !a.status.Failed?
  }

  lemma {:induction false} LiveCounted(allocations: seq<LocalRgbAllocation>)
    ensures |Filter(allocations, NotFailed())| == Sum(allocations, Live())
  {
    if allocations != [] {
      LiveCounted(allocations[..|allocations| - 1]);
    }
  }

  lemma PrunedForgetsFailed(u: LocalUnspent)
    ensures WithoutFailed(Pruned(u), u)
  {
    LiveCounted(u.allocations);
    FilterIsPart(u.allocations, NotFailed());
    forall a
      ensures a in Pruned(u).allocations <==> a in u.allocations && !a.status.Failed?
    {
      FilterMember(u.allocations, NotFailed(), a);
    }
  }

  /** The available outputs are exactly those with room, without their failed allocations. */
  lemma AvailableIff(us: seq<LocalUnspent>, exclude: seq<Outpoint>, maxAllocations: nat, v: LocalUnspent)
    ensures v in GetAvailableAllocations(us, exclude, maxAllocations) <==>
      exists u :: u in us && HasRoom(u, exclude, maxAllocations) && v == Pruned(u)
  {
    AvailableMember(us, exclude, maxAllocations, v);
    if v in GetAvailableAllocations(us, exclude, maxAllocations) {
      var i :| 0 <= i < |PruneAll(us)| && PruneAll(us)[i] == v;
      RoomWhenPruned(us[i], exclude, maxAllocations);
      assert us[i] in us && v == Pruned(us[i]);
    }
    if u :| u in us && HasRoom(u, exclude, maxAllocations) && v == Pruned(u) {
      var i :| 0 <= i < |us| && us[i] == u;
      RoomWhenPruned(u, exclude, maxAllocations);
      assert PruneAll(us)[i] == v;
    }
  }

  lemma RoomWhenPruned(u: LocalUnspent, exclude: seq<Outpoint>, maxAllocations: nat)
    ensures Allocatable(exclude, maxAllocations)(Pruned(u)) <==> HasRoom(u, exclude, maxAllocations)
  {
    var v := Pruned(u);
    PrunedForgetsFailed(u);
    ReservesSurvive(u);
    assert v.exists_ == u.exists_ && v.pendingWitness == u.pendingWitness && v.outpoint == u.outpoint;
    assert Load()(v) == Sum(u.allocations, Live()) + u.pendingBlinded;
  }

  lemma ReservesSurvive(u: LocalUnspent)
    ensures (exists a :: a in Pruned(u).allocations && a.Reserves())
      <==> exists a :: a in u.allocations && !a.incoming && (a.status.Initiated? || a.status.WaitingCounterparty?)
  {
    PrunedForgetsFailed(u);
    if a :| a in u.allocations && !a.incoming && (a.status.Initiated? || a.status.WaitingCounterparty?) {
      assert a in Pruned(u).allocations && a.Reserves();
    }
  }

  /** An allocation that will only be worth something later, on an output that is still there. */
  predicate Arriving(a: LocalRgbAllocation)
  {
    a.incoming && !a.txoSpent && !a.status.Settled? && !a.status.Failed?
  }

  /** The output hosts something arriving, for a pending operation; nothing that does, for any other one. */
  ghost predicate Preferred(u: LocalUnspent, pendingOperation: bool)
  {
    pendingOperation <==> exists a :: a in u.allocations && Arriving(a)
  }

  ghost predicate LeastLoaded(u: LocalUnspent, among: seq<LocalUnspent>)
  {
    forall v | v in among :: |u.allocations| + u.pendingBlinded <= |v.allocations| + v.pendingBlinded
  }

  /** No output of the preferred kind is less loaded. */
  ghost predicate LeastPreferred(u: LocalUnspent, pendingOperation: bool, among: seq<LocalUnspent>)
  {
    && Preferred(u, pendingOperation)
    && forall v | v in among && Preferred(v, pendingOperation) ::
         |u.allocations| + u.pendingBlinded <= |v.allocations| + v.pendingBlinded
  }

  function Kin(pendingOperation: bool): LocalUnspent -> bool
  {
    if pendingOperation then HasFuture() else HasNoFuture()
  }

  lemma KinIsPreferred(u: LocalUnspent, pendingOperation: bool)
    ensures Kin(pendingOperation)(u) <==> Preferred(u, pendingOperation)
  {
    assert forall a | a in u.allocations :: IsFuture(a) == Arriving(a);
  }

  /** The first of the sorted outputs that is of the preferred kind is the least loaded one of that kind. */
  lemma FirstOfKin(sorted: seq<LocalUnspent>, pendingOperation: bool)
    requires SortedByKey(sorted, Load())
    ensures var kin := Filter(sorted, Kin(pendingOperation));
      if kin == [] then forall v | v in sorted :: !Preferred(v, pendingOperation)
      else LeastPreferred(kin[0], pendingOperation, sorted)
  {
    var kin := Filter(sorted, Kin(pendingOperation));
    FilterIsPart(sorted, Kin(pendingOperation));
    SubsequenceSorted(kin, sorted, Load());
    forall v
      ensures v in kin <==> v in sorted && Preferred(v, pendingOperation)
    {
      FilterMember(sorted, Kin(pendingOperation), v);
      KinIsPreferred(v, pendingOperation);
    }
    if kin != [] {
      assert kin[0] in kin;
      forall v | v in sorted && Preferred(v, pendingOperation)
        ensures Load()(kin[0]) <= Load()(v)
      {
        var k :| 0 <= k < |kin| && kin[k] == v;
      }
    }
  }

  lemma FirstIsLeast(sorted: seq<LocalUnspent>)
    requires SortedByKey(sorted, Load()) && sorted != []
    ensures LeastLoaded(sorted[0], sorted)
  {
    forall v | v in sorted
      ensures Load()(sorted[0]) <= Load()(v)
    {
      var k :| 0 <= k < |sorted| && sorted[k] == v;
    }
  }

  /**
   * The output is the least loaded one of the preferred kind, unless it is a least loaded one of all and either
   * hosts nothing or there is none of the preferred kind; and a less loaded one is only left aside because it
   * already hosts something and is not of that kind.
   */
  ghost predicate WellChosen(u: LocalUnspent, pendingOperation: bool, among: seq<LocalUnspent>)
  {
    && u in among
    && (LeastPreferred(u, pendingOperation, among) || LeastLoaded(u, among))
    && (!Preferred(u, pendingOperation) ==>
          u.allocations == [] || |among| == 1 || forall v | v in among :: !Preferred(v, pendingOperation))
    && (!LeastLoaded(u, among) ==>
          exists v | v in among :: LeastLoaded(v, among) && v.allocations != [] && !Preferred(v, pendingOperation))
  }

  lemma PickIsWellChosen(sorted: seq<LocalUnspent>, pendingOperation: bool)
    requires SortedByKey(sorted, Load()) && sorted != []
    ensures WellChosen(Pick(sorted, pendingOperation), pendingOperation, sorted)
  {
    PickIsCandidate(sorted, pendingOperation);
    FirstOfKin(sorted, pendingOperation);
    FirstIsLeast(sorted);
    assert sorted[0] in sorted;
  }

  lemma ChosenInAnyOrder(u: LocalUnspent, pendingOperation: bool, xs: seq<LocalUnspent>, ys: seq<LocalUnspent>)
    requires WellChosen(u, pendingOperation, xs) && |xs| == |ys| && forall x :: x in xs <==> x in ys
    ensures WellChosen(u, pendingOperation, ys)
  {
    forall v | LeastLoaded(v, xs)
      ensures LeastLoaded(v, ys)
    {
    }
    assert LeastLoaded(u, ys) ==> LeastLoaded(u, xs);
  }

  lemma ChosenIsPreferred(us: seq<LocalUnspent>, exclude: seq<Outpoint>, pendingOperation: bool, maxAllocations: nat)
    requires GetUtxo(us, exclude, pendingOperation, maxAllocations).Some?
    ensures WellChosen(GetUtxo(us, exclude, pendingOperation, maxAllocations).value, pendingOperation,
                       GetAvailableAllocations(us, exclude, maxAllocations))
  {
    var among := GetAvailableAllocations(us, exclude, maxAllocations);
    var sorted := SortByKey(among, Load());
    SortByKeyCorrect(among, Load());
    SameMembers(sorted, among);
    PickIsWellChosen(sorted, pendingOperation);
    ChosenInAnyOrder(Pick(sorted, pendingOperation), pendingOperation, sorted, among);
  }
}
