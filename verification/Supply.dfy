/** Supply of an inflatable asset: what is issued, and the rights to issue more. */
module Supply {

  import opened Common

  const U64_MAX: nat := 0xFFFF_FFFF_FFFF_FFFF

  datatype Error = NoIssuanceAmounts | InvalidAmountZero | TooHighAmounts

  function Total(amounts: seq<nat>): (t: nat)
  {
    if amounts == [] then 0 else Total(amounts[..|amounts| - 1]) + amounts[|amounts| - 1]
  }

  predicate Positive(amounts: seq<nat>)
  {
    forall k | 0 <= k < |amounts| :: amounts[k] > 0
  }

  lemma {:induction false} TotalGrows(amounts: seq<nat>, i: nat)
    requires i <= |amounts|
    ensures Total(amounts[..i]) <= Total(amounts)
    decreases |amounts|
  {
    if i == |amounts| {
      assert amounts[..i] == amounts;
    } else {
      TotalGrows(amounts[..|amounts| - 1], i);
      assert amounts[..|amounts| - 1][..i] == amounts[..i];
    }
  }

  /** Add up 64-bit amounts, refusing zeros and overflow; which comes first decides the error. */
  method SumChecked(amounts: seq<nat>) returns (r: Result<nat, Error>)
    ensures r.Success? <==> Positive(amounts) && Total(amounts) <= U64_MAX
    ensures r.Success? ==> r.value == Total(amounts)
    ensures r == Failure(InvalidAmountZero) ==> !Positive(amounts)
    ensures r == Failure(TooHighAmounts) ==> Total(amounts) > U64_MAX
  {
    var total: nat := 0;
    for i := 0 to |amounts|
      invariant Positive(amounts[..i]) && total == Total(amounts[..i]) <= U64_MAX
    {
      assert amounts[..i + 1][..i] == amounts[..i];
      if amounts[i] == 0 {
        return Failure(InvalidAmountZero);
      }
      if total + amounts[i] > U64_MAX {
        TotalGrows(amounts, i + 1);
        return Failure(TooHighAmounts);
      }
      total := total + amounts[i];
    }
    assert amounts[..|amounts|] == amounts;
    r := Success(total);
  }

  method GetTotalIssueAmount(amounts: seq<nat>, allowEmpty: bool) returns (r: Result<nat, Error>)
    ensures r.Success? <==> Positive(amounts) && Total(amounts) <= U64_MAX && (amounts != [] || allowEmpty)
    ensures r.Success? ==> r.value == Total(amounts)
  {
    if amounts == [] && !allowEmpty {
      return Failure(NoIssuanceAmounts);
    }
    r := SumChecked(amounts);
  }

  /** The rights must also fit on top of what is already issued. */
  method GetTotalInflationAmount(amounts: seq<nat>, issued: nat) returns (r: Result<nat, Error>)
    ensures r.Success? <==>
      Positive(amounts) && Total(amounts) <= U64_MAX && (amounts == [] || issued + Total(amounts) <= U64_MAX)
    ensures r.Success? ==> r.value == Total(amounts)
  {
    r := SumChecked(amounts);
    if r.Failure? || amounts == [] {
      return;
    }
    if issued + r.value > U64_MAX {
      return Failure(TooHighAmounts);
    }
  }

  // ---------------------------------------------------------------- rights and operations on them

  /** An inflation right is free, an input of an operation in flight, or spent. */
  datatype Use = Free | Reserved(batch: nat) | Spent

  datatype Right = Right(amount: nat, use: Use)

  /** How much an operation takes out of the rights on its inputs: the rest returns as change. */
  datatype Plan = Inflate(amount: nat) | Send(amount: nat) | Burn
  {
    function Taken(): nat
    {
      if Burn? then 0 else amount
    }
  }

  /**
   * One wallet's view of an asset it has issued, and the rest of the world: the supply issued by anyone
   * and the rights held by others.
   */
  datatype Asset = Asset(
    maxSupply: nat, known: nat, issued: nat, elsewhere: nat, rights: seq<Right>, plans: map<nat, Plan>)

  function Held(): Right -> int
  {
    (r: Right) => if r.use.Spent? then 0 else r.amount
  }

  function On(batch: nat): Right -> int
  {
    (r: Right) => if r.use == Reserved(batch) then r.amount else 0
  }

  function HeldRights(a: Asset): int
  {
    Sum(a.rights, Held())
  }

  function FreeRights(amounts: seq<nat>): seq<Right>
  {
    seq(|amounts|, i requires 0 <= i < |amounts| => Right(amounts[i], Free))
  }

  /** A new asset; none when there is nothing to issue or the maximum would not fit. */
  function Issue(amounts: seq<nat>, inflation: seq<nat>): Option<Asset>
  {
    if !Positive(amounts) || !Positive(inflation) || Total(amounts) + Total(inflation) > U64_MAX then None
    else if Total(amounts) == 0 && Total(inflation) == 0 then None
    else Some(Asset(Total(amounts) + Total(inflation), Total(amounts), Total(amounts), 0, FreeRights(inflation), map[]))
  }

  function Reserve(rights: seq<Right>, inputs: set<nat>, batch: nat): seq<Right>
  {
    seq(|rights|, i requires 0 <= i < |rights| =>
      if i in inputs && rights[i].use.Free? then rights[i].(use := Reserved(batch)) else rights[i])
  }

  function Become(rights: seq<Right>, batch: nat, use: Use): seq<Right>
  {
    seq(|rights|, i requires 0 <= i < |rights| =>
      if rights[i].use == Reserved(batch) then rights[i].(use := use) else rights[i])
  }

  datatype Event =
    | Begin(batch: nat, plan: Plan, inputs: set<nat>)
    | End(batch: nat)
    | Fail(batch: nat)
    | Receive(amount: nat)     // rights come back to this wallet
    | OthersInflate(amount: nat)
    | Learn(issued: nat)       // an incoming consignment shows a total issued supply

  /** None where the wallet refuses, or the contract's rules do. */
  function Step(a: Asset, e: Event): Option<Asset>
  {
    match e
    case Begin(b, plan, inputs) =>
      var reserved := Reserve(a.rights, inputs, b);
      if b in a.plans || Sum(reserved, On(b)) < plan.Taken() then None
      else if plan.Inflate? && (plan.amount == 0 || a.known + plan.amount > U64_MAX) then None
      else Some(a.(rights := reserved, plans := a.plans[b := plan]))
    case End(b) => if b in a.plans then Ended(a, b) else None
    case Fail(b) =>
      if b in a.plans then Some(a.(rights := Become(a.rights, b, Free), plans := a.plans - {b})) else None
    case Receive(n) =>
      if n <= a.elsewhere then Some(a.(elsewhere := a.elsewhere - n, rights := a.rights + [Right(n, Free)])) else None
    case OthersInflate(n) =>
      if n <= a.elsewhere then Some(a.(elsewhere := a.elsewhere - n, issued := a.issued + n)) else None
    case Learn(t) =>
      if t <= a.issued then Some(a.(known := if a.known < t then t else a.known)) else None
  }

  /** The inputs are spent, the rest of them returns as one right, and the known supply grows unchecked. */
  function Ended(a: Asset, b: nat): Option<Asset>
    requires b in a.plans
  {
    var plan := a.plans[b];
    var taken := Sum(a.rights, On(b));
    if taken < plan.Taken() then None
    else
      var spent := a.(rights := AfterEnd(a.rights, b, taken - plan.Taken()), plans := a.plans - {b});
      Some(match plan
           case Inflate(n) => spent.(issued := a.issued + n, known := a.known + n)
           case Send(n) => spent.(elsewhere := a.elsewhere + n)
           case Burn => spent)
  }

  // ---------------------------------------------------------------- conservation

  lemma ReservedHeld(rights: seq<Right>, inputs: set<nat>, b: nat)
    ensures Sum(Reserve(rights, inputs, b), Held()) == Sum(rights, Held())
  {
    SumPointwise(Reserve(rights, inputs, b), rights, Held());
  }

  lemma ReservedOn(rights: seq<Right>, inputs: set<nat>, b: nat, c: nat)
    requires c != b
    ensures Sum(Reserve(rights, inputs, b), On(c)) == Sum(rights, On(c))
  {
    SumPointwise(Reserve(rights, inputs, b), rights, On(c));
  }

  lemma {:induction false} BecomeHeld(rights: seq<Right>, b: nat, use: Use)
    requires !use.Reserved?
    ensures Sum(Become(rights, b, use), Held()) == Sum(rights, Held()) - (if use.Spent? then Sum(rights, On(b)) else 0)
  {
    if rights != [] {
      var k := |rights| - 1;
      BecomeHeld(rights[..k], b, use);
      assert Become(rights, b, use)[..k] == Become(rights[..k], b, use);
    }
  }

  lemma BecomeOn(rights: seq<Right>, b: nat, use: Use, c: nat)
    requires !use.Reserved? && c != b
    ensures Sum(Become(rights, b, use), On(c)) == Sum(rights, On(c))
  {
    SumPointwise(Become(rights, b, use), rights, On(c));
  }

  /** Every right is held, spent on issued supply, or elsewhere; every operation in flight is covered. */
  ghost predicate Inv(a: Asset)
  {
    && a.issued + HeldRights(a) + a.elsewhere == a.maxSupply <= U64_MAX
    && a.known <= a.issued
    && forall b | b in a.plans :: a.plans[b].Taken() <= Sum(a.rights, On(b))
  }

  lemma {:induction false} FreeRightsSum(amounts: seq<nat>)
    ensures Sum(FreeRights(amounts), Held()) == Total(amounts)
  {
    if amounts != [] {
      var k := |amounts| - 1;
      FreeRightsSum(amounts[..k]);
      assert FreeRights(amounts)[..k] == FreeRights(amounts[..k]);
    }
  }

  lemma IssueInv(amounts: seq<nat>, inflation: seq<nat>)
    requires Issue(amounts, inflation).Some?
    ensures Inv(Issue(amounts, inflation).value)
    ensures var a := Issue(amounts, inflation).value; a.known + HeldRights(a) == a.maxSupply
  {
    FreeRightsSum(inflation);
  }

  /** There is something to issue and it fits: all of it is known at once, and every right is free. */
  lemma IssuedIff(amounts: seq<nat>, inflation: seq<nat>)
    ensures Issue(amounts, inflation).Some? <==>
      && (forall n | n in amounts + inflation :: n > 0)
      && 0 < Total(amounts) + Total(inflation) <= U64_MAX
    ensures Issue(amounts, inflation).Some? ==>
      var a := Issue(amounts, inflation).value;
      && a.known == a.issued == Total(amounts) && HeldRights(a) == Total(inflation) && a.elsewhere == 0
      && forall r | r in a.rights :: r.use.Free?
  {
    FreeRightsSum(inflation);
    assert forall k | 0 <= k < |amounts| :: amounts[k] in amounts + inflation;
    assert forall k | 0 <= k < |inflation| :: inflation[k] in amounts + inflation;
  }

  /** A consignment that shows more supply than was known makes it known; one that shows less changes nothing. */
  lemma LearnedSupply(a: Asset, t: nat)
    requires t <= a.issued
    ensures Step(a, Learn(t)).Some?
    ensures var b := Step(a, Learn(t)).value;
      t <= b.known && a.known <= b.known && b.known in {a.known, t} && b == a.(known := b.known)
  {
  }

  lemma {:induction false} OnAtMostHeld(rights: seq<Right>, b: nat)
    ensures 0 <= Sum(rights, On(b)) <= Sum(rights, Held())
  {
    if rights != [] {
      OnAtMostHeld(rights[..|rights| - 1], b);
    }
  }

  lemma BeginKeepsInv(a: Asset, b: nat, plan: Plan, inputs: set<nat>)
    requires Inv(a) && Step(a, Begin(b, plan, inputs)).Some?
    ensures Inv(Step(a, Begin(b, plan, inputs)).value)
  {
    ReservedHeld(a.rights, inputs, b);
    forall c | c in a.plans
      ensures Sum(Reserve(a.rights, inputs, b), On(c)) == Sum(a.rights, On(c))
    {
      ReservedOn(a.rights, inputs, b, c);
    }
  }

  /** The rights after an operation has ended: its inputs spent, the change added. */
  function AfterEnd(rights: seq<Right>, b: nat, change: nat): seq<Right>
  {
    Become(rights, b, Spent) + [Right(change, Free)]
  }

  lemma SettledHeld(rights: seq<Right>, b: nat, change: nat)
    ensures Sum(AfterEnd(rights, b, change), Held()) == Sum(rights, Held()) - Sum(rights, On(b)) + change
  {
    BecomeHeld(rights, b, Spent);
    SumAppend(Become(rights, b, Spent), Right(change, Free), Held());
  }

  lemma SettledOn(rights: seq<Right>, b: nat, change: nat, c: nat)
    requires c != b
    ensures Sum(AfterEnd(rights, b, change), On(c)) == Sum(rights, On(c))
  {
    BecomeOn(rights, b, Spent, c);
    SumAppend(Become(rights, b, Spent), Right(change, Free), On(c));
  }

  lemma EndKeepsHeld(a: Asset, b: nat)
    requires Inv(a) && b in a.plans
    ensures Ended(a, b).Some? && HeldRights(Ended(a, b).value) == HeldRights(a) - a.plans[b].Taken()
  {
    SettledHeld(a.rights, b, Sum(a.rights, On(b)) - a.plans[b].Taken());
  }

  lemma EndKeepsPlans(a: Asset, b: nat, c: nat)
    requires Inv(a) && b in a.plans && Ended(a, b).Some? && c in Ended(a, b).value.plans
    ensures c in a.plans && Ended(a, b).value.plans[c] == a.plans[c]
    ensures Sum(Ended(a, b).value.rights, On(c)) == Sum(a.rights, On(c))
  {
    SettledOn(a.rights, b, Sum(a.rights, On(b)) - a.plans[b].Taken(), c);
  }

  lemma EndKeepsInv(a: Asset, b: nat)
    requires Inv(a) && b in a.plans
    ensures Ended(a, b).Some? && Inv(Ended(a, b).value)
    ensures HeldRights(Ended(a, b).value) == HeldRights(a) - a.plans[b].Taken()
  {
    EndKeepsHeld(a, b);
    forall c | c in Ended(a, b).value.plans
      ensures Ended(a, b).value.plans[c].Taken() <= Sum(Ended(a, b).value.rights, On(c))
    {
      EndKeepsPlans(a, b, c);
    }
  }

  lemma FailKeepsInv(a: Asset, b: nat)
    requires Inv(a) && b in a.plans
    ensures Inv(Step(a, Fail(b)).value)
  {
    BecomeHeld(a.rights, b, Free);
    forall c | c in a.plans && c != b
      ensures Sum(Become(a.rights, b, Free), On(c)) == Sum(a.rights, On(c))
    {
      BecomeOn(a.rights, b, Free, c);
    }
  }

  lemma StepKeepsInv(a: Asset, e: Event)
    requires Inv(a) && Step(a, e).Some?
    ensures Inv(Step(a, e).value)
  {
    match e
    case Begin(b, plan, inputs) => BeginKeepsInv(a, b, plan, inputs);
    case End(b) => EndKeepsInv(a, b);
    case Fail(b) => FailKeepsInv(a, b);
    case Receive(n) =>
      SumAppend(a.rights, Right(n, Free), Held());
      forall c | c in a.plans
        ensures Sum(a.rights + [Right(n, Free)], On(c)) == Sum(a.rights, On(c))
      {
        SumAppend(a.rights, Right(n, Free), On(c));
      }
    case OthersInflate(n) =>
    case Learn(t) =>
  }

  // ---------------------------------------------------------------- which rights are free

  /** Rights that an operation could still take. */
  function Unreserved(): Right -> int
  {
    (r: Right) => if r.use.Free? then r.amount else 0
  }

  function FreeAmount(a: Asset): int
  {
    Sum(a.rights, Unreserved())
  }

  /** Only operations in flight hold rights back. */
  predicate Tidy(a: Asset)
  {
    forall r | r in a.rights && r.use.Reserved? :: r.use.batch in a.plans
  }

  lemma {:induction false} BecomeFree(rights: seq<Right>, b: nat, use: Use)
    requires !use.Reserved?
    ensures Sum(Become(rights, b, use), Unreserved())
         == Sum(rights, Unreserved()) + if use.Free? then Sum(rights, On(b)) else 0
  {
    if rights != [] {
      var k := |rights| - 1;
      BecomeFree(rights[..k], b, use);
      assert Become(rights, b, use)[..k] == Become(rights[..k], b, use);
    }
  }

  lemma {:induction false} ReserveFree(rights: seq<Right>, inputs: set<nat>, b: nat)
    requires forall r | r in rights :: r.use != Reserved(b)
    ensures Sum(Reserve(rights, inputs, b), Unreserved()) + Sum(Reserve(rights, inputs, b), On(b))
         == Sum(rights, Unreserved())
  {
    if rights != [] {
      var k := |rights| - 1;
      assert rights[k] in rights;
      ReserveFree(rights[..k], inputs, b);
      assert Reserve(rights, inputs, b)[..k] == Reserve(rights[..k], inputs, b);
    }
  }

  lemma TidyNotReserved(a: Asset, b: nat)
    requires Tidy(a) && b !in a.plans
    ensures forall r | r in a.rights :: r.use != Reserved(b)
  {
  }

  /** An operation holds back the free rights on its inputs, and at least what it takes. */
  lemma BeginReserves(a: Asset, b: nat, plan: Plan, inputs: set<nat>)
    requires Tidy(a) && Step(a, Begin(b, plan, inputs)).Some?
    ensures var t := Step(a, Begin(b, plan, inputs)).value;
      && Tidy(t) && FreeAmount(t) == FreeAmount(a) - Sum(t.rights, On(b)) && plan.Taken() <= Sum(t.rights, On(b))
  {
    TidyNotReserved(a, b);
    ReserveFree(a.rights, inputs, b);
    var t := Step(a, Begin(b, plan, inputs)).value;
    forall r | r in t.rights && r.use.Reserved?
      ensures r.use.batch in t.plans
    {
      var i :| 0 <= i < |t.rights| && t.rights[i] == r;
      assert a.rights[i] in a.rights;
    }
  }

  /** A failed operation gives all of them back, and leaves the asset as it was before the operation. */
  lemma FailUndoesBegin(a: Asset, b: nat, plan: Plan, inputs: set<nat>)
    requires Tidy(a) && Step(a, Begin(b, plan, inputs)).Some?
    ensures Step(Step(a, Begin(b, plan, inputs)).value, Fail(b)) == Some(a)
  {
    var begun := Step(a, Begin(b, plan, inputs)).value;
    var failed := Step(begun, Fail(b)).value;
    forall i | 0 <= i < |a.rights|
      ensures failed.rights[i] == a.rights[i]
    {
      assert a.rights[i] in a.rights;
    }
    assert failed.rights == a.rights;
    assert failed.plans == a.plans;
  }

  /** An operation in flight that fails frees what it holds back; one that ends frees what it did not take. */
  lemma OutcomeFrees(a: Asset, b: nat)
    requires Inv(a) && b in a.plans
    ensures Step(a, Fail(b)).Some? && FreeAmount(Step(a, Fail(b)).value) == FreeAmount(a) + Sum(a.rights, On(b))
    ensures Step(a, End(b)).Some?
      && FreeAmount(Step(a, End(b)).value) == FreeAmount(a) + Sum(a.rights, On(b)) - a.plans[b].Taken()
  {
    EndKeepsInv(a, b);
    BecomeFree(a.rights, b, Free);
    BecomeFree(a.rights, b, Spent);
    SumAppend(Become(a.rights, b, Spent), Right(Sum(a.rights, On(b)) - a.plans[b].Taken(), Free), Unreserved());
  }

  lemma OutcomeStaysTidy(a: Asset, b: nat)
    requires Tidy(a) && b in a.plans
    ensures Tidy(Step(a, Fail(b)).value)
    ensures Step(a, End(b)).Some? ==> Tidy(Step(a, End(b)).value)
  {
    forall i | 0 <= i < |a.rights|
      ensures a.rights[i].use.Reserved? ==> a.rights[i].use.batch in a.plans
    {
      assert a.rights[i] in a.rights;
    }
    BecomeTidy(a.rights, b, Free, a.plans);
    BecomeTidy(a.rights, b, Spent, a.plans);
  }

  lemma BecomeTidy(rights: seq<Right>, b: nat, use: Use, plans: map<nat, Plan>)
    requires !use.Reserved? && forall i | 0 <= i < |rights| && rights[i].use.Reserved? :: rights[i].use.batch in plans
    ensures forall r | r in Become(rights, b, use) && r.use.Reserved? :: r.use.batch in plans - {b}
  {
    forall r | r in Become(rights, b, use) && r.use.Reserved?
      ensures r.use.batch in plans - {b}
    {
      var i :| 0 <= i < |rights| && Become(rights, b, use)[i] == r;
    }
  }

  // ---------------------------------------------------------------- runs

  ghost predicate Runs(a: Asset, events: seq<Event>)
    decreases |events|
  {
    events == [] || (Step(a, events[0]).Some? && Runs(Step(a, events[0]).value, events[1..]))
  }

  ghost function After(a: Asset, events: seq<Event>): Asset
    requires Runs(a, events)
    decreases |events|
  {
    if events == [] then a else After(Step(a, events[0]).value, events[1..])
  }

  /** Over every run nothing but an operation in flight holds rights back. */
  lemma {:induction false} RunStaysTidy(a: Asset, events: seq<Event>)
    requires Tidy(a) && Runs(a, events)
    ensures Tidy(After(a, events))
    decreases |events|
  {
    if events != [] {
      var e := events[0];
      if e.Begin? {
        BeginReserves(a, e.batch, e.plan, e.inputs);
      } else if e.End? || e.Fail? {
        OutcomeStaysTidy(a, e.batch);
      }
      RunStaysTidy(Step(a, e).value, events[1..]);
    }
  }

  /** The known supply is the whole supply, and nobody else can issue. */
  predicate Own(a: Asset)
  {
    a.known == a.issued && a.elsewhere == 0 && NothingSent(a)
  }

  /** No operation in flight sends a right away. */
  predicate NothingSent(a: Asset)
  {
    forall b | b in a.plans && a.plans[b].Send? :: a.plans[b].amount == 0
  }

  predicate SendsRights(e: Event)
  {
    e.Begin? && e.plan.Send? && e.plan.amount > 0
  }

  lemma StepStaysOwn(a: Asset, e: Event)
    requires Inv(a) && Own(a) && Step(a, e).Some? && !SendsRights(e)
    ensures Own(Step(a, e).value)
  {
  }

  lemma {:induction false} RunKeeps(a: Asset, events: seq<Event>)
    requires Inv(a) && Runs(a, events)
    ensures Inv(After(a, events)) && After(a, events).maxSupply == a.maxSupply
    ensures Own(a) && (forall k | 0 <= k < |events| :: !SendsRights(events[k])) ==> Own(After(a, events))
    decreases |events|
  {
    if events != [] {
      StepKeepsInv(a, events[0]);
      if Own(a) && forall k | 0 <= k < |events| :: !SendsRights(events[k]) {
        StepStaysOwn(a, events[0]);
      }
      RunKeeps(Step(a, events[0]).value, events[1..]);
    }
  }

  /**
   * For a wallet that issued an asset and then inflates, burns, sends and receives: the supply it knows
   * plus the rights it holds never exceed the maximum, and equal it as long as it sends no right away.
   */
  lemma SupplyBounded(amounts: seq<nat>, inflation: seq<nat>, events: seq<Event>)
    requires Issue(amounts, inflation).Some? && Runs(Issue(amounts, inflation).value, events)
    ensures var a := After(Issue(amounts, inflation).value, events);
      && a.known + HeldRights(a) <= a.maxSupply == Total(amounts) + Total(inflation)
      && ((forall k | 0 <= k < |events| :: !SendsRights(events[k])) ==> a.known + HeldRights(a) == a.maxSupply)
  {
    IssueInv(amounts, inflation);
    RunKeeps(Issue(amounts, inflation).value, events);
  }

  /** The unchecked step of an inflation: in any run, ending one never overflows the known supply. */
  lemma InflationNeverOverflows(amounts: seq<nat>, inflation: seq<nat>, events: seq<Event>, b: nat)
    requires Issue(amounts, inflation).Some? && Runs(Issue(amounts, inflation).value, events)
    requires var a := After(Issue(amounts, inflation).value, events); b in a.plans && a.plans[b].Inflate?
    ensures var a := After(Issue(amounts, inflation).value, events);
      && a.known + a.plans[b].amount <= U64_MAX
      && Step(a, End(b)).Some?
      && Step(a, End(b)).value.known == a.known + a.plans[b].amount
  {
    var start := Issue(amounts, inflation).value;
    IssueInv(amounts, inflation);
    RunKeeps(start, events);
    var a := After(start, events);
    OnAtMostHeld(a.rights, b);
    EndKeepsInv(a, b);
  }

  /** Nor does the check at its beginning ever refuse an inflation that the rights cover. */
  lemma CoveredInflationAccepted(a: Asset, b: nat, n: nat, inputs: set<nat>)
    requires Inv(a) && b !in a.plans && 0 < n <= Sum(Reserve(a.rights, inputs, b), On(b))
    ensures Step(a, Begin(b, Inflate(n), inputs)).Some?
  {
    OnAtMostHeld(Reserve(a.rights, inputs, b), b);
    ReservedHeld(a.rights, inputs, b);
  }
}
