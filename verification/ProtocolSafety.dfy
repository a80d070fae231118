/** What no run of the transfer protocol can do. */
module ProtocolSafety {

  import opened Common
  import opened Assignments
  import opened Protocol

  // ---------------------------------------------------------------- the invariant

  /** One wallet that is not shared, or a shared wallet's cosigners and watch-only users. */
  ghost predicate WellFormed(d: Deal)
  {
    Solo(d) || Shared(d)
  }

  predicate Solo(d: Deal)
  {
    d.roles == [Single]
  }

  ghost predicate Shared(d: Deal)
  {
    forall j | 0 <= j < |d.roles| :: !d.roles[j].Single?
  }

  /** The first expiration is not after the second; without one it never comes. */
  predicate NotAfter(first: Option<int>, second: Option<int>)
  {
    second.None? || (first.Some? && first.value <= second.value)
  }

  /** The sender gives up no later than any recipient it reaches through the proxy. */
  ghost predicate WellTimed(d: Deal)
  {
    forall i | 0 <= i < |d.recipients| ::
      d.recipients[i].transport.Proxy? ==> NotAfter(d.expiration, d.recipients[i].expiration)
  }

  /** A posted ACK stands for a valid consignment and is only given up after the expiration. */
  predicate IncomingInv(t: Terms, r: Incoming, posted: bool, safe: bool, now: int)
  {
    && !r.status.Initiated?
    && (r.status.WaitingSafeHeight? || r.status.WaitingBroadcast? ==> t.valid && posted)
    && (r.slot.Some? ==> t.transport.Proxy? && r.slot == Some(t.valid) && posted)
    && (r.slot == Some(true) ==> !t.risky || safe)
    && (r.slot == Some(true) && r.status.Failed? ==> Expired(t.expiration, now))
  }

  /** Once the network has the transaction, the recipient has ACKed it and not failed. */
  predicate IncomingSafe(t: Terms, r: Incoming, chain: Chain)
  {
    chain.Some? && t.transport.Proxy? ==> r.slot == Some(true) && !r.status.Failed?
  }

  /** A recorded ACK is the proxy's; one given out of band is never negative. */
  predicate RowInv(t: Terms, ack: Option<bool>, slot: Option<bool>)
  {
    ack.Some? ==> if t.transport.Proxy? then ack == slot else ack.value
  }

  ghost predicate RowsInv(d: Deal, acks: seq<Option<bool>>, slots: seq<Option<bool>>)
  {
    && |acks| == |slots| == |d.recipients|
    && forall i | 0 <= i < |acks| :: RowInv(d.recipients[i], acks[i], slots[i])
  }

  /** A status follows the hub's decision. */
  predicate StatusInv(role: Role, status: TransferStatus, o: Outside)
  {
    && !status.WaitingSafeHeight? && !status.WaitingBroadcast?
    && (status.WaitingConfirmations? || status.Settled? ==> o.chain.Some?)
    && (!role.Single? && (status.WaitingConfirmations? || status.Settled?) ==> o.hub == Some(true))
    && (role.Cosigner? && status.Failed? ==> o.hub == Some(false))
  }

  ghost predicate ProxiesAcked(d: Deal, slots: seq<Option<bool>>)
    requires |slots| == |d.recipients|
  {
    forall i | 0 <= i < |slots| :: d.recipients[i].transport.Proxy? ==> slots[i] == Some(true)
  }

  /** The hub accepts only what every proxy recipient has ACKed; a shared wallet broadcasts only what it accepts. */
  ghost predicate OutsideInv(d: Deal, slots: seq<Option<bool>>, o: Outside)
    requires |slots| == |d.recipients|
  {
    && (o.hub == Some(true) || o.chain.Some? ==> ProxiesAcked(d, slots))
    && (Shared(d) && o.chain.Some? ==> o.hub == Some(true))
    && (Solo(d) ==> o.hub.None?)
  }

  ghost predicate SendersInv(d: Deal, w: World)
    requires Shaped(d, w)
  {
    forall j | 0 <= j < |w.senders| ::
      RowsInv(d, w.senders[j].acks, w.slots) && StatusInv(d.roles[j], w.senders[j].status, w.outside)
  }

  ghost predicate ReceiversInv(d: Deal, w: World)
    requires Shaped(d, w)
  {
    forall i | 0 <= i < |w.receivers| :: IncomingInv(d.recipients[i], IncomingOf(w, i), w.posted, w.safe[i], w.now)
  }

  ghost predicate Inv(d: Deal, w: World)
  {
    Shaped(d, w) && SendersInv(d, w) && ReceiversInv(d, w) && OutsideInv(d, w.slots, w.outside)
  }

  /** No proxy recipient has failed once the transaction is on the network. */
  ghost predicate RecipientsSafe(d: Deal, w: World)
    requires Shaped(d, w)
  {
    forall i | 0 <= i < |w.receivers| :: IncomingSafe(d.recipients[i], IncomingOf(w, i), w.outside.chain)
  }

  // ---------------------------------------------------------------- a recipient's step

  /** There are only two decisions. */
  lemma Decided(register: Option<bool>)
    ensures register in {None, Some(true), Some(false)}
  {
    if register.Some? {
      assert register.value || !register.value;
    }
  }

  datatype Act = Refreshing | Failing | Taking

  function Acted(act: Act, t: Terms, v: View, r: Incoming): Incoming
  {
    match act
    case Refreshing => RefreshIncoming(t, v, r)
    case Failing => FailIncoming(t, v, r)
    case Taking => TakeConsignment(t, v, r)
  }

  /** Whether or not its transaction rolls back, a recipient keeps the invariant and its slot's value. */
  lemma IncomingKeeps(act: Act, t: Terms, v: View, r: Incoming, commits: bool)
    requires IncomingInv(t, r, v.posted, v.safe, v.now)
    ensures var a := Acted(act, t, v, r);
      && IncomingInv(t, if commits then a else r.(slot := a.slot), v.posted, v.safe, v.now)
      && (r.slot.Some? ==> a.slot == r.slot)
  {
  }

  lemma IncomingStaysSafe(act: Act, t: Terms, v: View, r: Incoming, commits: bool)
    requires IncomingInv(t, r, v.posted, v.safe, v.now) && IncomingSafe(t, r, v.chain)
    ensures var a := Acted(act, t, v, r);
      IncomingSafe(t, if commits then a else r.(slot := a.slot), v.chain)
  {
  }

  // ---------------------------------------------------------------- a sender's step

  /** What any operation of a sender keeps, given what it leaves behind. */
  ghost predicate SentInv(d: Deal, role: Role, s: Outgoing, slots: seq<Option<bool>>, o: Outside, sent: Sent)
    requires |slots| == |d.recipients|
  {
    && RowsInv(d, sent.rows.acks, slots)
    && StatusInv(role, sent.rows.status, sent.outside)
    && OutsideInv(d, slots, sent.outside)
    && Extends(o, sent.outside)
    && AcksKept(s.acks, sent.rows.acks)
  }

  /** A decision once taken stays, and so does a transaction once seen. */
  predicate Extends(o: Outside, after: Outside)
  {
    && (o.hub.Some? ==> after.hub == o.hub)
    && (o.chain.Some? ==> after.chain.Some?)
  }

  ghost predicate AcksKept(acks: seq<Option<bool>>, after: seq<Option<bool>>)
  {
    |after| == |acks| && forall i | 0 <= i < |acks| && acks[i].Some? :: after[i] == acks[i]
  }

  lemma PolledKeeps(d: Deal, acks: seq<Option<bool>>, slots: seq<Option<bool>>)
    requires RowsInv(d, acks, slots)
    ensures RowsInv(d, Polled(d, acks, slots), slots)
    ensures AcksKept(acks, Polled(d, acks, slots))
    ensures forall n :: RowsInv(d, PartlyPolled(d, acks, slots, n), slots)
    ensures forall n :: AcksKept(acks, PartlyPolled(d, acks, slots, n))
  {
  }

  lemma AllAckedMeansProxies(d: Deal, acks: seq<Option<bool>>, slots: seq<Option<bool>>)
    requires RowsInv(d, acks, slots) && AllAcked(acks)
    ensures ProxiesAcked(d, slots)
  {
    forall i | 0 <= i < |slots| && d.recipients[i].transport.Proxy?
      ensures slots[i] == Some(true)
    {
      assert RowInv(d.recipients[i], acks[i], slots[i]) && acks[i] == Some(true);
    }
  }

  predicate RoleFits(d: Deal, role: Role)
  {
    if role.Single? then Solo(d) else !Solo(d)
  }

  /** Completing a batch moves it only to a status that follows the hub, and never revises a decision. */
  lemma CompleteKeeps(d: Deal, role: Role, acks: seq<Option<bool>>, slots: seq<Option<bool>>, now: int, o: Outside, net: Network)
    requires RowsInv(d, acks, slots) && OutsideInv(d, slots, o) && RoleFits(d, role) && WellFormed(d)
    ensures var c := TryCompleteBatch(d, role, acks, now, o, net);
      && OutsideInv(d, slots, c.outside) && Extends(o, c.outside)
      && (c.reply.Moved? ==> StatusInv(role, c.reply.status, c.outside))
      && (o.chain.None? && c.outside.chain.Some? ==> AllAcked(acks) && !Expired(d.expiration, now))
  {
    Decided(o.hub);
    if AllAcked(acks) {
      AllAckedMeansProxies(d, acks, slots);
    }
    if Solo(d) {
      assert d.roles[0].Single?;
    }
  }

  lemma FailKeeps(d: Deal, role: Role, slots: seq<Option<bool>>, o: Outside)
    requires |slots| == |d.recipients| && OutsideInv(d, slots, o) && RoleFits(d, role)
    ensures var c := FailBatch(role, o);
      && OutsideInv(d, slots, c.outside) && Extends(o, c.outside) && c.outside.chain == o.chain
      && (c.reply.Moved? ==> c.reply == Moved(Failed) && StatusInv(role, Failed, c.outside))
  {
    Decided(o.hub);
  }

  lemma StatusPersists(role: Role, status: TransferStatus, o: Outside, after: Outside)
    requires StatusInv(role, status, o) && Extends(o, after)
    ensures StatusInv(role, status, after)
  {
  }

  lemma RefreshKeeps(d: Deal, role: Role, s: Outgoing, slots: seq<Option<bool>>, now: int, o: Outside, a: Answers)
    requires RowsInv(d, s.acks, slots) && OutsideInv(d, slots, o) && StatusInv(role, s.status, o)
    requires RoleFits(d, role) && WellFormed(d)
    ensures var sent := RefreshOutgoing(d, role, s, slots, now, o, a);
      && SentInv(d, role, s, slots, o, sent)
      && (o.chain.None? && sent.outside.chain.Some? ==> ProxiesAcked(d, slots) && !Expired(d.expiration, now))
  {
    var acks := Polled(d, s.acks, slots);
    PolledKeeps(d, s.acks, slots);
    CompleteKeeps(d, role, acks, slots, now, o, a.network);
    if AllAcked(acks) {
      AllAckedMeansProxies(d, acks, slots);
    }
    FailKeeps(d, role, slots, o);
    var sent := RefreshOutgoing(d, role, s, slots, now, o, a);
    StatusPersists(role, s.status, o, sent.outside);
  }

  lemma FailOutgoingKeeps(d: Deal, role: Role, s: Outgoing, slots: seq<Option<bool>>, now: int, o: Outside, a: Answers)
    requires RowsInv(d, s.acks, slots) && OutsideInv(d, slots, o) && StatusInv(role, s.status, o)
    requires RoleFits(d, role) && WellFormed(d)
    ensures var sent := FailOutgoing(d, role, s, slots, now, o, a);
      && SentInv(d, role, s, slots, o, sent)
      && (o.chain.None? && sent.outside.chain.Some? ==> ProxiesAcked(d, slots) && !Expired(d.expiration, now))
  {
    var refreshed := RefreshOutgoing(d, role, s, slots, now, o, a);
    RefreshKeeps(d, role, s, slots, now, o, a);
    FailKeeps(d, role, slots, refreshed.outside);
    var sent := FailOutgoing(d, role, s, slots, now, o, a);
    StatusPersists(role, s.status, o, sent.outside);
  }

  lemma ProvideAckKeeps(d: Deal, role: Role, s: Outgoing, slots: seq<Option<bool>>, i: nat, now: int, o: Outside, net: Network)
    requires RowsInv(d, s.acks, slots) && OutsideInv(d, slots, o) && StatusInv(role, s.status, o)
    requires RoleFits(d, role) && WellFormed(d) && i < |s.acks|
    ensures var sent := ProvideAck(d, role, s, i, now, o, net);
      && SentInv(d, role, s, slots, o, sent)
      && (o.chain.None? && sent.outside.chain.Some? ==> ProxiesAcked(d, slots) && !Expired(d.expiration, now))
  {
    assert RowInv(d.recipients[i], s.acks[i], slots[i]);
    if d.recipients[i].transport.OutOfBand? {
      var acks := s.acks[i := Some(true)];
      assert RowsInv(d, acks, slots) && AcksKept(s.acks, acks);
      CompleteKeeps(d, role, acks, slots, now, o, net);
      if AllAcked(acks) {
        AllAckedMeansProxies(d, acks, slots);
      }
    }
    var sent := ProvideAck(d, role, s, i, now, o, net);
    StatusPersists(role, s.status, o, sent.outside);
  }

  // ---------------------------------------------------------------- the world's step

  lemma StartInv(d: Deal, now: int)
    requires WellFormed(d)
    ensures Inv(d, NewWorld(d, now)) && RecipientsSafe(d, NewWorld(d, now))
  {
  }

  lemma RolesFit(d: Deal, j: nat)
    requires WellFormed(d) && j < |d.roles|
    ensures RoleFits(d, d.roles[j])
  {
    if Solo(d) {
      assert d.roles[0].Single?;
    }
  }

  /** What an event of the sender's side does, as one operation. */
  function SentBy(d: Deal, w: World, e: Event): Sent
    requires |w.senders| == |d.roles| && IsSend(w, e)
    requires |w.slots| == |d.recipients| && |w.senders[SenderOf(e)].acks| == |d.recipients|
  {
    var j := SenderOf(e);
    match e
    case RefreshSend(_, a, _) => RefreshOutgoing(d, d.roles[j], w.senders[j], w.slots, w.now, w.outside, a)
    case FailSend(_, a, _) => FailOutgoing(d, d.roles[j], w.senders[j], w.slots, w.now, w.outside, a)
    case GiveAck(_, i, net, _) =>
      if i < |d.recipients| then ProvideAck(d, d.roles[j], w.senders[j], i, w.now, w.outside, net)
      else Sent(w.senders[j], Unchanged, w.outside)
    case _ => Sent(w.senders[j], Unchanged, w.outside)
  }

  function SenderOf(e: Event): nat
    requires e.RefreshSend? || e.FailSend? || e.GiveAck?
  {
    e.sender
  }

  predicate IsSend(w: World, e: Event)
  {
    (e.RefreshSend? || e.FailSend? || e.GiveAck?) && e.sender < |w.senders|
  }

  lemma SentKeeps(d: Deal, w: World, e: Event)
    requires Inv(d, w) && WellFormed(d) && IsSend(w, e)
    ensures var sent := SentBy(d, w, e);
      && SentInv(d, d.roles[e.sender], w.senders[e.sender], w.slots, w.outside, sent)
      && (w.outside.chain.None? && sent.outside.chain.Some? ==>
            ProxiesAcked(d, w.slots) && !Expired(d.expiration, w.now))
  {
    var j := e.sender;
    RolesFit(d, j);
    match e
    case RefreshSend(_, a, _) => RefreshKeeps(d, d.roles[j], w.senders[j], w.slots, w.now, w.outside, a);
    case FailSend(_, a, _) => FailOutgoingKeeps(d, d.roles[j], w.senders[j], w.slots, w.now, w.outside, a);
    case GiveAck(_, i, net, _) =>
      if i < |d.recipients| {
        ProvideAckKeeps(d, d.roles[j], w.senders[j], w.slots, i, w.now, w.outside, net);
      }
    case _ =>
  }

  lemma SendStep(d: Deal, w: World, e: Event)
    requires Shaped(d, w) && IsSend(w, e)
    ensures Step(d, w, e) == WithSent(w, e.sender, SentBy(d, w, e), e.commits)
  {
    var j := e.sender;
    if !(e.GiveAck? && e.recipient >= |d.recipients|) {
      return;
    }
    assert w.senders[j := w.senders[j]] == w.senders;
  }

  lemma SendKeepsInv(d: Deal, w: World, e: Event)
    requires Inv(d, w) && WellFormed(d) && IsSend(w, e)
    ensures Inv(d, Step(d, w, e))
  {
    SendStep(d, w, e);
    SentKeeps(d, w, e);
    var after := Step(d, w, e);
    forall j | 0 <= j < |after.senders|
      ensures RowsInv(d, after.senders[j].acks, after.slots)
      ensures StatusInv(d.roles[j], after.senders[j].status, after.outside)
    {
      StatusPersists(d.roles[j], w.senders[j].status, w.outside, after.outside);
    }
    forall i | 0 <= i < |after.receivers|
      ensures IncomingInv(d.recipients[i], IncomingOf(after, i), after.posted, after.safe[i], after.now)
    {
      assert IncomingInv(d.recipients[i], IncomingOf(w, i), w.posted, w.safe[i], w.now);
    }
  }

  /** What an event of a recipient's side does, as one operation. */
  predicate IsReceive(w: World, e: Event)
  {
    (e.RefreshReceive? || e.FailReceive? || e.HandOver?) && e.recipient < |w.receivers|
  }

  function ActOf(e: Event): Act
    requires e.RefreshReceive? || e.FailReceive? || e.HandOver?
  {
    if e.RefreshReceive? then Refreshing else if e.FailReceive? then Failing else Taking
  }

  function ReceivedBy(d: Deal, w: World, e: Event): Incoming
    requires IsReceive(w, e) && |w.receivers| == |w.slots| == |w.safe| == |d.recipients|
  {
    Acted(ActOf(e), d.recipients[e.recipient], ViewOf(d, w, e.recipient), IncomingOf(w, e.recipient))
  }

  lemma ReceiveStep(d: Deal, w: World, e: Event)
    requires Shaped(d, w) && IsReceive(w, e)
    ensures Step(d, w, e) == WithIncoming(w, e.recipient, ReceivedBy(d, w, e), e.commits)
  {
  }

  lemma SlotsKept(d: Deal, w: World, e: Event)
    requires Inv(d, w) && IsReceive(w, e)
    ensures var after := Step(d, w, e);
      && after.outside == w.outside && after.senders == w.senders && after.posted == w.posted
      && after.safe == w.safe && after.now == w.now
      && forall i | 0 <= i < |w.slots| && w.slots[i].Some? :: after.slots[i] == w.slots[i]
  {
    var i := e.recipient;
    ReceiveStep(d, w, e);
    IncomingKeeps(ActOf(e), d.recipients[i], ViewOf(d, w, i), IncomingOf(w, i), e.commits);
  }

  lemma ReceiveKeepsInv(d: Deal, w: World, e: Event)
    requires Inv(d, w) && IsReceive(w, e)
    ensures Inv(d, Step(d, w, e))
  {
    SlotsKept(d, w, e);
    ReceiveStep(d, w, e);
    var after := Step(d, w, e);
    forall i | 0 <= i < |after.receivers|
      ensures IncomingInv(d.recipients[i], IncomingOf(after, i), after.posted, after.safe[i], after.now)
    {
      assert IncomingInv(d.recipients[i], IncomingOf(w, i), w.posted, w.safe[i], w.now);
      if i == e.recipient {
        IncomingKeeps(ActOf(e), d.recipients[i], ViewOf(d, w, i), IncomingOf(w, i), e.commits);
      }
    }
    forall j | 0 <= j < |after.senders|
      ensures RowsInv(d, after.senders[j].acks, after.slots)
    {
      RowsFollowSlots(d, w.senders[j].acks, w.slots, after.slots);
    }
  }

  lemma RowsFollowSlots(d: Deal, acks: seq<Option<bool>>, slots: seq<Option<bool>>, after: seq<Option<bool>>)
    requires RowsInv(d, acks, slots) && |after| == |slots|
    requires forall i | 0 <= i < |slots| && slots[i].Some? :: after[i] == slots[i]
    ensures RowsInv(d, acks, after)
  {
    forall i | 0 <= i < |acks|
      ensures RowInv(d.recipients[i], acks[i], after[i])
    {
      assert RowInv(d.recipients[i], acks[i], slots[i]);
    }
  }

  /** The remaining events: time, confirmations, safe height, and the end of a send. */
  lemma OtherKeepsInv(d: Deal, w: World, e: Event)
    requires Inv(d, w) && WellFormed(d) && !IsSend(w, e) && !IsReceive(w, e)
    ensures Inv(d, Step(d, w, e))
  {
    var after := Step(d, w, e);
    assert Extends(w.outside, after.outside) && (w.posted ==> after.posted) && w.now <= after.now;
    forall j | 0 <= j < |after.senders|
      ensures RowsInv(d, after.senders[j].acks, after.slots)
      ensures StatusInv(d.roles[j], after.senders[j].status, after.outside)
    {
      assert RowsInv(d, w.senders[j].acks, w.slots) && StatusInv(d.roles[j], w.senders[j].status, w.outside);
    }
    forall i | 0 <= i < |after.receivers|
      ensures IncomingInv(d.recipients[i], IncomingOf(after, i), after.posted, after.safe[i], after.now)
    {
      assert IncomingInv(d.recipients[i], IncomingOf(w, i), w.posted, w.safe[i], w.now);
    }
  }

  lemma StepKeepsInv(d: Deal, w: World, e: Event)
    requires Inv(d, w) && WellFormed(d)
    ensures Inv(d, Step(d, w, e))
  {
    if IsSend(w, e) {
      SendKeepsInv(d, w, e);
    } else if IsReceive(w, e) {
      ReceiveKeepsInv(d, w, e);
    } else {
      OtherKeepsInv(d, w, e);
    }
  }

  // ---------------------------------------------------------------- safety of the recipients

  /** At the moment of the broadcast every proxy recipient has ACKed and none has expired. */
  lemma BroadcastIsSafe(d: Deal, w: World)
    requires Inv(d, w) && WellTimed(d) && ProxiesAcked(d, w.slots) && !Expired(d.expiration, w.now)
    ensures forall i | 0 <= i < |w.receivers| && d.recipients[i].transport.Proxy? ::
      w.slots[i] == Some(true) && !w.receivers[i].Failed?
  {
    forall i | 0 <= i < |w.receivers| && d.recipients[i].transport.Proxy?
      ensures w.slots[i] == Some(true) && !w.receivers[i].Failed?
    {
      assert IncomingInv(d.recipients[i], IncomingOf(w, i), w.posted, w.safe[i], w.now);
      assert NotAfter(d.expiration, d.recipients[i].expiration);
    }
  }

  lemma StepStaysSafe(d: Deal, w: World, e: Event)
    requires Inv(d, w) && WellFormed(d) && WellTimed(d) && RecipientsSafe(d, w)
    ensures RecipientsSafe(d, Step(d, w, e))
  {
    var after := Step(d, w, e);
    if IsSend(w, e) {
      SendStep(d, w, e);
      SentKeeps(d, w, e);
      if w.outside.chain.None? && after.outside.chain.Some? {
        BroadcastIsSafe(d, w);
      }
    } else if IsReceive(w, e) {
      ReceiveStep(d, w, e);
    }
    forall i | 0 <= i < |after.receivers|
      ensures IncomingSafe(d.recipients[i], IncomingOf(after, i), after.outside.chain)
    {
      assert IncomingSafe(d.recipients[i], IncomingOf(w, i), w.outside.chain);
      if IsReceive(w, e) && i == e.recipient {
        assert IncomingInv(d.recipients[i], IncomingOf(w, i), w.posted, w.safe[i], w.now);
        IncomingStaysSafe(ActOf(e), d.recipients[i], ViewOf(d, w, i), IncomingOf(w, i), e.commits);
      }
    }
  }

  lemma {:induction false} RunKeepsInv(d: Deal, w: World, events: seq<Event>)
    requires Inv(d, w) && WellFormed(d)
    ensures Inv(d, After(d, w, events))
    ensures WellTimed(d) && RecipientsSafe(d, w) ==> RecipientsSafe(d, After(d, w, events))
    decreases |events|
  {
    if events != [] {
      StepKeepsInv(d, w, events[0]);
      if WellTimed(d) && RecipientsSafe(d, w) {
        StepStaysSafe(d, w, events[0]);
      }
      RunKeepsInv(d, Step(d, w, events[0]), events[1..]);
    }
  }

  /**
   * In no run, whatever fails or rolls back on the way, is the transaction on the network while a proxy
   * recipient has failed the transfer.
   */
  lemma NoBroadcastAgainstFailed(d: Deal, now: int, events: seq<Event>, i: nat)
    requires WellFormed(d) && WellTimed(d) && i < |d.recipients| && d.recipients[i].transport.Proxy?
    ensures var w := After(d, NewWorld(d, now), events);
      w.outside.chain.Some? ==> !w.receivers[i].Failed? && w.slots[i] == Some(true)
  {
    StartInv(d, now);
    RunKeepsInv(d, NewWorld(d, now), events);
    var w := After(d, NewWorld(d, now), events);
    assert IncomingSafe(d.recipients[i], IncomingOf(w, i), w.outside.chain);
  }

  // ---------------------------------------------------------------- agreement of the cosigners

  /** A cosigner's final status is the hub's decision, and a failed transfer was never broadcast. */
  lemma CosignersFollowHub(d: Deal, now: int, events: seq<Event>, j: nat)
    requires WellFormed(d) && j < |d.roles| && d.roles[j].Cosigner?
    ensures var w := After(d, NewWorld(d, now), events);
      && (w.senders[j].status.Failed? ==> w.outside.hub == Some(false) && w.outside.chain.None?)
      && (w.senders[j].status.WaitingConfirmations? || w.senders[j].status.Settled? ==> w.outside.hub == Some(true))
  {
    StartInv(d, now);
    RunKeepsInv(d, NewWorld(d, now), events);
    var w := After(d, NewWorld(d, now), events);
    RolesFit(d, j);
    assert StatusInv(d.roles[j], w.senders[j].status, w.outside);
  }

  predicate Completed(status: TransferStatus)
  {
    status.WaitingConfirmations? || status.Settled?
  }

  /** No two cosigners end on opposite outcomes, at whatever points of a run they are looked at. */
  lemma CosignersAgree(d: Deal, now: int, before: seq<Event>, after: seq<Event>, j: nat, k: nat)
    requires WellFormed(d) && j < |d.roles| && k < |d.roles| && d.roles[j].Cosigner? && d.roles[k].Cosigner?
    ensures var w := After(d, NewWorld(d, now), before);
      var v := After(d, w, after);
      && !(w.senders[j].status.Failed? && Completed(v.senders[k].status))
      && !(Completed(w.senders[j].status) && v.senders[k].status.Failed?)
  {
    StartInv(d, now);
    RunKeepsInv(d, NewWorld(d, now), before);
    var w := After(d, NewWorld(d, now), before);
    RunKeepsInv(d, w, after);
    RunExtends(d, w, after);
    var v := After(d, w, after);
    assert StatusInv(d.roles[j], w.senders[j].status, w.outside);
    assert StatusInv(d.roles[k], v.senders[k].status, v.outside);
  }

  // ---------------------------------------------------------------- ACKs

  /** A step never revises a recorded ACK, a posted one or a decision. */
  lemma StepExtends(d: Deal, w: World, e: Event)
    requires Inv(d, w) && WellFormed(d)
    ensures var after := Step(d, w, e);
      && Extends(w.outside, after.outside) && AcksKept(w.slots, after.slots) && w.now <= after.now
      && forall j | 0 <= j < |w.senders| :: AcksKept(w.senders[j].acks, after.senders[j].acks)
  {
    if IsSend(w, e) {
      SendStep(d, w, e);
      SentKeeps(d, w, e);
    } else if IsReceive(w, e) {
      SlotsKept(d, w, e);
    }
  }

  lemma {:induction false} RunExtends(d: Deal, w: World, events: seq<Event>)
    requires Inv(d, w) && WellFormed(d)
    ensures Extends(w.outside, After(d, w, events).outside)
    ensures AcksKept(w.slots, After(d, w, events).slots)
    ensures forall j | 0 <= j < |w.senders| :: AcksKept(w.senders[j].acks, After(d, w, events).senders[j].acks)
    decreases |events|
  {
    if events != [] {
      StepExtends(d, w, events[0]);
      StepKeepsInv(d, w, events[0]);
      RunExtends(d, Step(d, w, events[0]), events[1..]);
    }
  }

  /** Whatever interleaving of refreshes and ACKs given by hand follows, a recorded ACK stays what it is. */
  lemma AckNeverFlips(d: Deal, now: int, before: seq<Event>, after: seq<Event>, j: nat, i: nat)
    requires WellFormed(d) && j < |d.roles| && i < |d.recipients|
    ensures var w := After(d, NewWorld(d, now), before);
      w.senders[j].acks[i].Some? ==> After(d, w, after).senders[j].acks[i] == w.senders[j].acks[i]
  {
    StartInv(d, now);
    RunKeepsInv(d, NewWorld(d, now), before);
    RunExtends(d, After(d, NewWorld(d, now), before), after);
  }
}
