/** The state transitions that a transaction commits to, and what they conserve. */
module Transitions {

  import opened Common
  import opened Assignments
  import opened SendLoop
  import opened Selection

  datatype MainTransition = Inflate | Transfer | Burn

  /** One asset of the batch: what it spends and what it must pay. */
  datatype AssetPlan = AssetPlan(
    asset: AssetId, kind: MainTransition, recipients: seq<Assignment>, original: AssignmentsCollection,
    selected: set<Outpoint>, inputs: seq<Holding>, extra: seq<Holding>, change: AssignmentsCollection)

  /** Whose seal an output goes to: that of a recipient, by its place in the request, or the wallet's own. */
  datatype Destination = ToRecipient(index: nat) | ToChange

  datatype Output = Output(ty: OwnedStateType, state: AllocatedState, to: Destination)

  datatype Transition = Transition(
    asset: AssetId, inputs: seq<Holding>, outputs: seq<Output>, issued: nat, burned: nat)

  function AssetOut(): Output -> int
  {
    (o: Output) => if o.state.Amount? && o.ty.OsAsset? then o.state.amount else 0
  }

  function InflationOut(): Output -> int
  {
    (o: Output) => if o.state.Amount? && o.ty.OsInflation? then o.state.amount else 0
  }

  function DataOut(): Output -> int
  {
    (o: Output) => if o.state.Data? then 1 else 0
  }

  function NonFungibleAsked(): Assignment -> int
  {
    (a: Assignment) => if a.NonFungible? then 1 else 0
  }

  function FungibleAsked(): Assignment -> int
  {
    (a: Assignment) => a.FungibleAmount()
  }

  function InflationAsked(): Assignment -> int
  {
    (a: Assignment) => a.InflationAmount()
  }

  /** Nothing appears or disappears but what is declared as issued or burned. */
  ghost predicate Balanced(t: Transition)
  {
    && Sum(t.inputs, FungibleState()) + t.issued == Sum(t.outputs, AssetOut()) + t.burned
    && Sum(t.inputs, InflationState()) == Sum(t.outputs, InflationOut()) + t.issued
    && (SomeData(t.inputs) <==> Sum(t.outputs, DataOut()) > 0)
  }

  /** The original need follows from the recipients, as each operation computes it. */
  ghost predicate NeedFollows(p: AssetPlan)
  {
    && (forall a | a in p.recipients :: !a.Any?)
    && match p.kind
       case Transfer =>
         && p.original.fungible == Sum(p.recipients, FungibleAsked())
         && p.original.inflation == Sum(p.recipients, InflationAsked())
         && (p.original.nonFungible <==> Sum(p.recipients, NonFungibleAsked()) > 0)
       case Inflate =>
         && (forall a | a in p.recipients :: a.Fungible?)
         && p.original.inflation == Sum(p.recipients, FungibleAsked())
         && p.original.fungible == 0 && !p.original.nonFungible
       case Burn =>
         && p.recipients == [Fungible(0)]
         && p.original.inflation == 0 && !p.original.nonFungible
  }

  /** What the preparation of the inputs guarantees. */
  ghost predicate Funded(p: AssetPlan, stock: seq<Holding>)
  {
    && multiset(p.inputs) + multiset(p.extra) == multiset(AssignmentsFor(stock, p.asset, p.selected))
    && Sum(p.inputs, FungibleState()) == p.original.fungible + p.change.fungible
    && Sum(p.inputs, InflationState()) == p.original.inflation + p.change.inflation
    && (SomeData(p.inputs) <==> p.original.nonFungible)
  }

  /** The plan of a prepared asset. */
  function PlanOf(p: PreparedAsset, req: AssetRequest, kind: MainTransition, recipients: seq<Assignment>): AssetPlan
  {
    AssetPlan(req.asset, kind, recipients, req.original, OutpointsOf(p.spend.inputs), p.inputs, p.extra, p.change)
  }

  /** What a request is prepared with funds its plan, whatever its main transition is. */
  lemma PreparedIsFunded(p: PreparedAsset, req: AssetRequest, kind: MainTransition, recipients: seq<Assignment>,
                         unspents: seq<LocalUnspent>, stock: seq<Holding>)
    requires Serves(p, req, unspents, stock)
    ensures Funded(PlanOf(p, req, kind, recipients), stock)
  {
  }

  /** What an inflation or a burn needs: rights worth the new amounts, or the amount to burn. */
  ghost function SingleNeed(kind: MainTransition, amounts: seq<Assignment>): (c: AssignmentsCollection)
    ensures kind.Inflate? ==> c.inflation == Sum(amounts, FungibleAsked()) && c.fungible == 0
    ensures !kind.Inflate? ==> c.fungible == Sum(amounts, FungibleAsked()) && c.inflation == 0
    ensures !c.nonFungible
  {
    SumNonNegative(amounts, FungibleAsked());
    if kind.Inflate? then Collection(0, false, Sum(amounts, FungibleAsked()))
    else Collection(Sum(amounts, FungibleAsked()), false, 0)
  }

  /** Select and choose the inputs of an inflation or a burn, which have no reject list to consult. */
  method PrepareSingle(req: AssetRequest, kind: MainTransition, amounts: seq<Assignment>, unspents: seq<LocalUnspent>,
                       stock: seq<Holding>)
    returns (r: Result<AssetPlan, AssignmentsCollection>)
    requires !kind.Transfer? && forall a | a in amounts :: a.Fungible?
    requires req.original == SingleNeed(kind, amounts)
    requires ValidStock(stock) && DistinctOutpoints(unspents) && ValidRequest(req, unspents, stock)
    ensures r.Success? ==> Funded(r.value, stock) && NeedFollows(r.value) && r.value.kind == kind
    ensures r.Success? ==> r.value.asset == req.asset && r.value.original == req.original
    ensures r.Failure? ==> !AvailableCovers(req, unspents, stock, {})
  {
    NothingRejected([req], stock);
    assert NeededIs([req][0], [req][0].original, {}, stock);
    var p := PrepareAsset(req, req.original, {}, unspents, stock);
    if p.Failure? {
      return Failure(p.error);
    }
    var recipients := if kind.Inflate? then amounts else [Fungible(0)];
    PreparedIsFunded(p.value, req, kind, recipients, unspents, stock);
    r := Success(PlanOf(p.value, req, kind, recipients));
  }

  // ---------------------------------------------------------------- main transitions

  /** The outputs are worth what the recipients asked for. */
  ghost predicate Pays(outputs: seq<Output>, recipients: seq<Assignment>)
  {
    && Sum(outputs, AssetOut()) == Sum(recipients, FungibleAsked())
    && Sum(outputs, InflationOut()) == Sum(recipients, InflationAsked())
    && Sum(outputs, DataOut()) == Sum(recipients, NonFungibleAsked())
    && (forall o | o in outputs :: o.state != Amount(0))
  }

  function For(i: nat): Output -> bool
  {
    (o: Output) => o.to == ToRecipient(i)
  }

  function Returned(): Output -> bool
  {
    (o: Output) => o.to.ToChange?
  }

  /** What a recipient gets: one output of exactly what it is to receive, and none for a zero amount. */
  ghost predicate Due(outputs: seq<Output>, a: Assignment)
  {
    match a
    case Fungible(n) =>
      if n == 0 then outputs == []
      else |outputs| == 1 && outputs[0].ty.OsAsset? && outputs[0].state == Amount(n)
    case NonFungible => |outputs| == 1 && outputs[0].ty.OsAsset? && outputs[0].state.Data?
    case InflationRight(n) =>
      if n == 0 then outputs == []
      else |outputs| == 1 && outputs[0].ty.OsInflation? && outputs[0].state == Amount(n)
    case Any => true
  }

  /** Every recipient gets its due on its own seal, and nobody else gets anything. */
  ghost predicate EachPaid(outputs: seq<Output>, recipients: seq<Assignment>)
  {
    && (forall i | 0 <= i < |recipients| :: Due(Filter(outputs, For(i)), recipients[i]))
    && (forall o | o in outputs && o.to.ToRecipient? :: o.to.index < |recipients|)
  }

  /** What goes to the wallet's own seal is worth the change, no more and no less. */
  ghost predicate ChangeComesBack(outputs: seq<Output>, change: AssignmentsCollection)
  {
    var back := Filter(outputs, Returned());
    && Sum(back, AssetOut()) == change.fungible
    && Sum(back, InflationOut()) == change.inflation
    && Sum(back, DataOut()) == 0
  }

  /** The output of one recipient; a zero amount gets none. */
  function RecipientOutput(a: Assignment, i: nat): seq<Output>
    requires !a.Any?
  {
    match a
    case Fungible(n) => if n == 0 then [] else [Output(OsAsset, Amount(n), ToRecipient(i))]
    case NonFungible => [Output(OsAsset, Data, ToRecipient(i))]
    case InflationRight(n) => if n == 0 then [] else [Output(OsInflation, Amount(n), ToRecipient(i))]
  }

  lemma PaysOneMore(outputs: seq<Output>, recipients: seq<Assignment>, a: Assignment)
    requires Pays(outputs, recipients) && !a.Any?
    ensures Pays(outputs + RecipientOutput(a, |recipients|), recipients + [a])
  {
    SumAppend(recipients, a, FungibleAsked());
    SumAppend(recipients, a, InflationAsked());
    SumAppend(recipients, a, NonFungibleAsked());
    var own := RecipientOutput(a, |recipients|);
    if own == [] {
      assert outputs + own == outputs;
    } else {
      assert own == [own[0]];
      SumAppend(outputs, own[0], AssetOut());
      SumAppend(outputs, own[0], InflationOut());
      SumAppend(outputs, own[0], DataOut());
    }
  }

  lemma OwnOutput(a: Assignment, i: nat, k: nat)
    requires !a.Any?
    ensures Filter(RecipientOutput(a, i), For(k)) == if k == i then RecipientOutput(a, i) else []
  {
    var own := RecipientOutput(a, i);
    if own != [] {
      assert own == [own[0]];
      FilterOne(own[0], For(k));
    }
  }

  lemma PaidOneMore(outputs: seq<Output>, recipients: seq<Assignment>, a: Assignment)
    requires EachPaid(outputs, recipients) && !a.Any?
    ensures EachPaid(outputs + RecipientOutput(a, |recipients|), recipients + [a])
  {
    var n, own := |recipients|, RecipientOutput(a, |recipients|);
    FilterNone(outputs, For(n));
    forall i | 0 <= i <= n
      ensures Due(Filter(outputs + own, For(i)), (recipients + [a])[i])
    {
      FilterConcat(outputs, own, For(i));
      OwnOutput(a, n, i);
    }
  }

  method RecipientOutputs(recipients: seq<Assignment>) returns (outputs: seq<Output>)
    requires forall a | a in recipients :: !a.Any?
    ensures Pays(outputs, recipients) && EachPaid(outputs, recipients)
    ensures forall o | o in outputs :: o.to.ToRecipient?
  {
    outputs := [];
    for i := 0 to |recipients|
      invariant Pays(outputs, recipients[..i]) && EachPaid(outputs, recipients[..i])
      invariant forall o | o in outputs :: o.to.ToRecipient?
    {
      assert recipients[..i + 1] == recipients[..i] + [recipients[i]];
      PaysOneMore(outputs, recipients[..i], recipients[i]);
      PaidOneMore(outputs, recipients[..i], recipients[i]);
      outputs := outputs + RecipientOutput(recipients[i], i);
    }
    assert recipients[..|recipients|] == recipients;
  }

  /** Outputs of the wallet's own, one per kind of change. */
  function ChangeOutputs(change: AssignmentsCollection): seq<Output>
  {
    (if change.fungible > 0 then [Output(OsAsset, Amount(change.fungible), ToChange)] else []) +
    (if change.inflation > 0 then [Output(OsInflation, Amount(change.inflation), ToChange)] else [])
  }

  lemma ChangeIsReturned(change: AssignmentsCollection)
    ensures Sum(ChangeOutputs(change), AssetOut()) == change.fungible
    ensures Sum(ChangeOutputs(change), InflationOut()) == change.inflation
    ensures Sum(ChangeOutputs(change), DataOut()) == 0
  {
    var f := if change.fungible > 0 then [Output(OsAsset, Amount(change.fungible), ToChange)] else [];
    var i := if change.inflation > 0 then [Output(OsInflation, Amount(change.inflation), ToChange)] else [];
    SumConcat(f, i, AssetOut());
    SumConcat(f, i, InflationOut());
    SumConcat(f, i, DataOut());
  }

  /** Outputs to the wallet leave the recipients' alone, and are all that comes back. */
  lemma WithChange(outputs: seq<Output>, recipients: seq<Assignment>, change: AssignmentsCollection)
    requires EachPaid(outputs, recipients) && forall o | o in outputs :: o.to.ToRecipient?
    ensures EachPaid(outputs + ChangeOutputs(change), recipients)
    ensures ChangeComesBack(outputs + ChangeOutputs(change), change)
  {
    var back := ChangeOutputs(change);
    forall i | 0 <= i < |recipients|
      ensures Due(Filter(outputs + back, For(i)), recipients[i])
    {
      FilterConcat(outputs, back, For(i));
      FilterNone(back, For(i));
    }
    FilterConcat(outputs, back, Returned());
    FilterNone(outputs, Returned());
    FilterAll(back, Returned());
    assert Filter(outputs + back, Returned()) == back;
    ChangeIsReturned(change);
  }

  /** The transition carries out the plan: its inputs, its recipients, its change, what it issues or burns. */
  ghost predicate Executes(t: Transition, p: AssetPlan)
  {
    && t.asset == p.asset && t.inputs == p.inputs
    && EachPaid(t.outputs, p.recipients) && ChangeComesBack(t.outputs, p.change)
    && t.issued == (if p.kind.Inflate? then p.original.inflation else 0)
    && t.burned == (if p.kind.Burn? then p.original.fungible else 0)
  }

  /** Pay the recipients, return the change, and declare what is issued or burned. */
  method BuildMain(p: AssetPlan, ghost stock: seq<Holding>) returns (t: Transition)
    requires Funded(p, stock) && NeedFollows(p)
    ensures Balanced(t) && Executes(t, p)
  {
    var outputs := RecipientOutputs(p.recipients);
    AskedByKind(p);
    WithChange(outputs, p.recipients, p.change);
    ChangeIsReturned(p.change);
    SumConcat(outputs, ChangeOutputs(p.change), AssetOut());
    SumConcat(outputs, ChangeOutputs(p.change), InflationOut());
    SumConcat(outputs, ChangeOutputs(p.change), DataOut());
    t := Transition(p.asset, p.inputs, outputs + ChangeOutputs(p.change),
                    if p.kind.Inflate? then p.original.inflation else 0,
                    if p.kind.Burn? then p.original.fungible else 0);
  }

  lemma AskedByKind(p: AssetPlan)
    requires NeedFollows(p)
    ensures p.kind.Inflate? ==> Sum(p.recipients, InflationAsked()) == 0
    ensures p.kind.Burn? ==> Sum(p.recipients, FungibleAsked()) == 0 == Sum(p.recipients, InflationAsked())
    ensures p.original.nonFungible <==> Sum(p.recipients, NonFungibleAsked()) > 0
  {
    if p.kind.Inflate? {
      SumZero(p.recipients, InflationAsked());
      SumZero(p.recipients, NonFungibleAsked());
    } else if p.kind.Burn? {
      SumZero(p.recipients, FungibleAsked());
      SumZero(p.recipients, InflationAsked());
      SumZero(p.recipients, NonFungibleAsked());
    }
  }

  // ---------------------------------------------------------------- all transitions

  /** A leftover opout moves whole to a change seal, in a transition of its own. */
  function ExtraTransition(h: Holding): (t: Transition)
    ensures Balanced(t) && t.inputs == [h] && t.asset == h.asset
    ensures t.outputs == [Output(h.opout.ty, h.state, ToChange)]
  {
    var o := Output(h.opout.ty, h.state, ToChange);
    SumAppend([], h, FungibleState());
    SumAppend([], h, InflationState());
    SumAppend([], h, DataState());
    SumAppend([], o, AssetOut());
    SumAppend([], o, InflationOut());
    SumAppend([], o, DataOut());
    assert [] + [h] == [h] && [] + [o] == [o];
    Transition(h.asset, [h], [o], 0, 0)
  }

  function Consumed(ts: seq<Transition>): seq<Holding>
  {
    if ts == [] then [] else Consumed(ts[..|ts| - 1]) + ts[|ts| - 1].inputs
  }

  lemma ConsumedAppend(ts: seq<Transition>, t: Transition)
    ensures Consumed(ts + [t]) == Consumed(ts) + t.inputs
  {
    assert (ts + [t])[..|ts|] == ts;
  }

  predicate Planned(plans: seq<AssetPlan>, asset: AssetId)
  {
    exists p | p in plans :: p.asset == asset
  }

  /** An opout of a planned asset on that asset's own selected outpoints. */
  predicate IsSelected(plans: seq<AssetPlan>, h: Holding)
  {
    exists p | p in plans :: p.asset == h.asset && h.outpoint in p.selected
  }

  function Selected(plans: seq<AssetPlan>): Holding -> bool
  {
    (h: Holding) => IsSelected(plans, h)
  }

  /** Opouts of unplanned assets (of those in assets) on the transaction's inputs. */
  function Unplanned(plans: seq<AssetPlan>, assets: set<AssetId>, prevOutputs: set<Outpoint>): Holding -> bool
  {
    (h: Holding) => h.asset in assets && !Planned(plans, h.asset) && h.outpoint in prevOutputs
  }

  function AtInputs(prevOutputs: set<Outpoint>): Holding -> bool
  {
    (h: Holding) => h.outpoint in prevOutputs
  }

  /** One plan per asset, each selecting among the transaction's inputs. */
  ghost predicate ValidPlans(plans: seq<AssetPlan>, prevOutputs: set<Outpoint>)
  {
    && (forall i, j | 0 <= i < j < |plans| :: plans[i].asset != plans[j].asset)
    && (forall p | p in plans :: p.selected <= prevOutputs)
  }

  ghost predicate ValidBatch(plans: seq<AssetPlan>, stock: seq<Holding>, prevOutputs: set<Outpoint>)
  {
    && ValidPlans(plans, prevOutputs)
    && (forall p | p in plans :: Funded(p, stock) && NeedFollows(p))
  }

  lemma OneMorePlan(plans: seq<AssetPlan>, i: nat, stock: seq<Holding>, prevOutputs: set<Outpoint>)
    requires ValidBatch(plans, stock, prevOutputs) && i < |plans|
    ensures multiset(Filter(stock, Selected(plans[..i + 1])))
         == multiset(Filter(stock, Selected(plans[..i]))) + multiset(plans[i].inputs) + multiset(plans[i].extra)
  {
    var p := plans[i];
    assert p in plans;
    assert plans[..i + 1] == plans[..i] + [p];
    FilterSplit(stock, Selected(plans[..i + 1]), Selected(plans[..i]), HeldIn(p.asset, p.selected));
  }

  /** One balanced transition carries out each plan, in order. */
  ghost predicate AllExecute(ts: seq<Transition>, plans: seq<AssetPlan>)
  {
    |ts| == |plans| && forall i | 0 <= i < |plans| :: Balanced(ts[i]) && Executes(ts[i], plans[i])
  }

  lemma OneMoreExecutes(ts: seq<Transition>, plans: seq<AssetPlan>, t: Transition)
    requires |ts| < |plans| && AllExecute(ts, plans[..|ts|])
    requires Balanced(t) && Executes(t, plans[|ts|])
    ensures AllExecute(ts + [t], plans[..|ts| + 1])
  {
  }

  /** Main transitions of the planned assets; their unused opouts are collected as extras. */
  method BuildMains(plans: seq<AssetPlan>, stock: seq<Holding>, ghost prevOutputs: set<Outpoint>)
    returns (ts: seq<Transition>, extra: seq<Holding>)
    requires ValidBatch(plans, stock, prevOutputs)
    ensures AllExecute(ts, plans)
    ensures multiset(Consumed(ts)) + multiset(extra) == multiset(Filter(stock, Selected(plans)))
  {
    ts, extra := [], [];
    FilterNone(stock, Selected([]));
    assert plans[..0] == [];
    ghost var moved: multiset<Holding> := multiset{};
    for i := 0 to |plans|
      invariant AllExecute(ts, plans[..i])
      invariant multiset(Consumed(ts)) + multiset(extra) == moved
      invariant moved == multiset(Filter(stock, Selected(plans[..i])))
    {
      OneMorePlan(plans, i, stock, prevOutputs);
      assert plans[i] in plans;
      var t := BuildMain(plans[i], stock);
      ConsumedAppend(ts, t);
      OneMoreExecutes(ts, plans, t);
      ts := ts + [t];
      extra := extra + plans[i].extra;
      moved := moved + multiset(plans[i].inputs) + multiset(plans[i].extra);
    }
    assert plans[..|plans|] == plans;
  }

  /** Collect what other contracts have on the transaction's inputs. */
  method CollectOthers(plans: seq<AssetPlan>, stock: seq<Holding>, prevOutputs: set<Outpoint>)
    returns (extra: seq<Holding>)
    ensures multiset(extra) == multiset(Filter(stock, (h: Holding) => h.outpoint in prevOutputs && !Planned(plans, h.asset)))
  {
    extra := [];
    var assigning := set h | h in stock && h.outpoint in prevOutputs :: h.asset;
    var todo := assigning;
    FilterNone(stock, Unplanned(plans, {}, prevOutputs));
    assert assigning - todo == {};
    while todo != {}
      invariant todo <= assigning
      invariant multiset(extra) == multiset(Filter(stock, Unplanned(plans, assigning - todo, prevOutputs)))
      decreases todo
    {
      var asset :| asset in todo;
      ghost var done := assigning - todo;
      todo := todo - {asset};
      assert assigning - todo == done + {asset};
      if Planned(plans, asset) {
        FilterAgree(stock, Unplanned(plans, done, prevOutputs), Unplanned(plans, done + {asset}, prevOutputs));
      } else {
        FilterSplit(stock, Unplanned(plans, done + {asset}, prevOutputs), Unplanned(plans, done, prevOutputs),
                    HeldIn(asset, prevOutputs));
        extra := extra + AssignmentsFor(stock, asset, prevOutputs);
      }
    }
    assert assigning - todo == assigning;
    FilterAgree(stock, Unplanned(plans, assigning, prevOutputs),
                (h: Holding) => h.outpoint in prevOutputs && !Planned(plans, h.asset));
  }

  /** Every opout that some transition consumes. */
  function Moved(plans: seq<AssetPlan>, prevOutputs: set<Outpoint>): Holding -> bool
  {
    (h: Holding) => if Planned(plans, h.asset) then IsSelected(plans, h) else h.outpoint in prevOutputs
  }

  /** One leftover opout goes whole to the wallet's own seal. */
  ghost predicate ReturnsWhole(t: Transition)
  {
    && |t.inputs| == 1 && t.asset == t.inputs[0].asset && t.issued == t.burned == 0
    && |t.outputs| == 1 && t.outputs[0].to.ToChange?
    && t.outputs[0].ty == t.inputs[0].opout.ty && t.outputs[0].state == t.inputs[0].state
  }

  /**
   * All transitions of a batch. One carries out each plan, and every other one returns a leftover. Each is
   * balanced, and together they consume, exactly once each, the opouts of planned assets on their own
   * selected outpoints and those of other assets on any input.
   */
  method BuildTransitions(plans: seq<AssetPlan>, stock: seq<Holding>, prevOutputs: set<Outpoint>)
    returns (ts: seq<Transition>)
    requires ValidBatch(plans, stock, prevOutputs)
    ensures |plans| <= |ts| && AllExecute(ts[..|plans|], plans)
    ensures forall i | |plans| <= i < |ts| :: Balanced(ts[i]) && ReturnsWhole(ts[i])
    ensures multiset(Consumed(ts)) == multiset(Filter(stock, Moved(plans, prevOutputs)))
  {
    var mains, unused := BuildMains(plans, stock, prevOutputs);
    var others := CollectOthers(plans, stock, prevOutputs);
    FilterSplit(stock, Moved(plans, prevOutputs), Selected(plans),
                (h: Holding) => h.outpoint in prevOutputs && !Planned(plans, h.asset));
    ExtrasConsume(mains, unused + others);
    ts := AppendExtras(mains, unused + others);
    Assembled(mains, plans, unused + others);
  }

  function ExtraTransitions(extra: seq<Holding>): seq<Transition>
  {
    if extra == [] then [] else ExtraTransitions(extra[..|extra| - 1]) + [ExtraTransition(extra[|extra| - 1])]
  }

  /** Each leftover goes whole to a seal of the wallet. */
  lemma {:induction false} ExtrasMoveWhole(extra: seq<Holding>)
    ensures |ExtraTransitions(extra)| == |extra|
    ensures forall i | 0 <= i < |extra| ::
      ExtraTransitions(extra)[i] ==
        Transition(extra[i].asset, [extra[i]], [Output(extra[i].opout.ty, extra[i].state, ToChange)], 0, 0)
  {
    if extra != [] {
      ExtrasMoveWhole(extra[..|extra| - 1]);
    }
  }

  lemma Assembled(mains: seq<Transition>, plans: seq<AssetPlan>, extra: seq<Holding>)
    requires AllExecute(mains, plans)
    ensures var ts := mains + ExtraTransitions(extra);
      && |plans| <= |ts| && AllExecute(ts[..|plans|], plans)
      && forall i | |plans| <= i < |ts| :: Balanced(ts[i]) && ReturnsWhole(ts[i])
  {
    var rest := ExtraTransitions(extra);
    var ts := mains + rest;
    assert ts[..|plans|] == mains;
    ExtrasMoveWhole(extra);
    forall i | |plans| <= i < |ts|
      ensures Balanced(ts[i]) && ReturnsWhole(ts[i])
    {
      assert ts[i] == rest[i - |plans|] == ExtraTransition(extra[i - |plans|]);
    }
  }

  lemma {:induction false} ExtrasConsume(mains: seq<Transition>, extra: seq<Holding>)
    ensures Consumed(mains + ExtraTransitions(extra)) == Consumed(mains) + extra
  {
    if extra == [] {
      assert mains + [] == mains;
    } else {
      var n := |extra| - 1;
      ExtrasConsume(mains, extra[..n]);
      ConsumedAppend(mains + ExtraTransitions(extra[..n]), ExtraTransition(extra[n]));
      assert mains + ExtraTransitions(extra) == mains + ExtraTransitions(extra[..n]) + [ExtraTransition(extra[n])];
    }
  }

  /** One more transition for every leftover opout. */
  method AppendExtras(mains: seq<Transition>, extra: seq<Holding>) returns (ts: seq<Transition>)
    ensures ts == mains + ExtraTransitions(extra)
  {
    ts := mains;
    for i := 0 to |extra|
      invariant ts == mains + ExtraTransitions(extra[..i])
    {
      assert extra[..i + 1][..i] == extra[..i];
      ts := ts + [ExtraTransition(extra[i])];
    }
    assert extra[..|extra|] == extra;
  }

  // ---------------------------------------------------------------- conservation

  /** No input hosts a batch asset that it was not selected for. */
  ghost predicate SelectedWhereHosted(plans: seq<AssetPlan>, stock: seq<Holding>, prevOutputs: set<Outpoint>)
  {
    forall h, p | h in stock && p in plans && h.asset == p.asset && h.outpoint in prevOutputs ::
      h.outpoint in p.selected
  }

  /** An input opout outside its asset's selection is consumed by no transition. */
  lemma UnselectedIsLost(plans: seq<AssetPlan>, stock: seq<Holding>, prevOutputs: set<Outpoint>, h: Holding, p: AssetPlan)
    requires ValidPlans(plans, prevOutputs)
    requires h in stock && p in plans && h.asset == p.asset && h.outpoint in prevOutputs - p.selected
    ensures multiset(Filter(stock, Moved(plans, prevOutputs)))[h] == 0
    ensures multiset(Filter(stock, AtInputs(prevOutputs)))[h] > 0
  {
    forall q | q in plans && q.asset == h.asset
      ensures q == p
    {
      var i :| 0 <= i < |plans| && plans[i] == p;
      var j :| 0 <= j < |plans| && plans[j] == q;
    }
    assert Planned(plans, h.asset) && !IsSelected(plans, h);
    FilterCount(stock, Moved(plans, prevOutputs), h);
    FilterCount(stock, AtInputs(prevOutputs), h);
  }

  lemma SelectedIsMoved(plans: seq<AssetPlan>, stock: seq<Holding>, prevOutputs: set<Outpoint>)
    requires ValidPlans(plans, prevOutputs) && SelectedWhereHosted(plans, stock, prevOutputs)
    ensures Filter(stock, Moved(plans, prevOutputs)) == Filter(stock, AtInputs(prevOutputs))
  {
    forall h | h in stock
      ensures Moved(plans, prevOutputs)(h) == AtInputs(prevOutputs)(h)
    {
      if Planned(plans, h.asset) {
        var p :| p in plans && p.asset == h.asset;
        assert h.outpoint in prevOutputs ==> h.outpoint in p.selected;
        assert p.selected <= prevOutputs;
      }
    }
    FilterAgree(stock, Moved(plans, prevOutputs), AtInputs(prevOutputs));
  }

  /** Every opout on a spent input is moved exactly when each input was selected for the batch assets it hosts. */
  lemma ConservedIffSelected(plans: seq<AssetPlan>, stock: seq<Holding>, prevOutputs: set<Outpoint>)
    requires ValidPlans(plans, prevOutputs)
    ensures multiset(Filter(stock, Moved(plans, prevOutputs))) == multiset(Filter(stock, AtInputs(prevOutputs)))
      <==> SelectedWhereHosted(plans, stock, prevOutputs)
  {
    if SelectedWhereHosted(plans, stock, prevOutputs) {
      SelectedIsMoved(plans, stock, prevOutputs);
    } else {
      var h, p :| h in stock && p in plans && h.asset == p.asset && h.outpoint in prevOutputs && h.outpoint !in p.selected;
      UnselectedIsLost(plans, stock, prevOutputs, h, p);
    }
  }
}
