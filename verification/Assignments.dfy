/** RGB state as the wallet counts it: opouts, their states and collections of amounts. */
module Assignments {

  import opened Common

  type AssetId = string

  /** A transaction output. */
  datatype Outpoint = Outpoint(txid: string, vout: nat)

  datatype OwnedStateType = OsAsset | OsInflation

  /** A single piece of owned RGB state: an output of a contract operation. */
  datatype Opout = Opout(opid: string, ty: OwnedStateType, no: nat)

  datatype AllocatedState = Amount(amount: nat) | Data

  datatype Assignment = Fungible(amount: nat) | NonFungible | InflationRight(amount: nat) | Any
  {
    function MainAmount(): nat
    {
      match this
      case Fungible(n) => n
      case NonFungible => 1
      case _ => 0
    }

    function InflationAmount(): nat
    {
      if InflationRight? then amount else 0
    }

    function FungibleAmount(): nat
    {
      if Fungible? then amount else 0
    }
  }

  datatype TransferStatus =
    | Initiated
    | WaitingCounterparty
    | WaitingSafeHeight
    | WaitingBroadcast
    | WaitingConfirmations
    | Settled
    | Failed
  {
    predicate Pending()
    {
      Initiated? || Waiting()
    }

    predicate Waiting()
    {
      WaitingCounterparty? || WaitingSafeHeight? || WaitingConfirmations? || WaitingBroadcast?
    }

    predicate IsFallible()
    {
      Initiated? || WaitingCounterparty? || WaitingSafeHeight? || WaitingBroadcast?
    }
  }

  /** The amounts of each kind of assignment; the source's u64 totals are naturals here. */
  datatype AssignmentsCollection = Collection(fungible: nat, nonFungible: bool, inflation: nat)
  {
    function AddAssignment(a: Assignment): AssignmentsCollection
      requires !a.Any?
    {
      match a
      case Fungible(n) => this.(fungible := fungible + n)
      case NonFungible => this.(nonFungible := true)
      case InflationRight(n) => this.(inflation := inflation + n)
    }

    function AddOpoutState(o: Opout, s: AllocatedState): AssignmentsCollection
    {
      match s
      case Amount(n) =>
        if o.ty.OsAsset? then this.(fungible := fungible + n) else this.(inflation := inflation + n)
      case Data => this.(nonFungible := true)
    }

    /** Whether taking this opout still helps to reach what is needed. */
    predicate OpoutContributes(o: Opout, s: AllocatedState, needed: AssignmentsCollection)
    {
      match s
      case Amount(_) =>
        if o.ty.OsAsset? then fungible < needed.fungible else inflation < needed.inflation
      case Data => needed.nonFungible && !nonFungible
    }

    predicate Covers(needed: AssignmentsCollection)
    {
      needed.fungible <= fungible && needed.inflation <= inflation
    }

    /** What is left after serving needed; undefined (a panic in the wallet) unless covered. */
    function Change(needed: AssignmentsCollection): AssignmentsCollection
      requires Covers(needed)
    {
      Collection(fungible - needed.fungible, false, inflation - needed.inflation)
    }

    predicate Enough(needed: AssignmentsCollection)
    {
      Covers(needed) && nonFungible == needed.nonFungible
    }
  }

  const NOTHING := Collection(0, false, 0)
}
