/** What each operation of a sender or a recipient comes to, case by case, and when a transfer may settle. */
module ProtocolReplies {

  import opened Common
  import opened Assignments
  import opened Protocol
  import opened ProtocolSafety

  // ---------------------------------------------------------------- settling needs confirmations

  /** The network has the transaction under at least as many confirmations as the transfer asks for. */
  predicate Deep(d: Deal, w: World)
  {
    w.outside.chain.Some? && d.minConfirmations <= w.outside.chain.value
  }

  ghost predicate SettledIsDeep(d: Deal, w: World)
  {
    && (forall j | 0 <= j < |w.senders| && w.senders[j].status.Settled? :: Deep(d, w))
    && (forall i | 0 <= i < |w.receivers| && w.receivers[i].Settled? :: Deep(d, w))
  }

  /** What an operation leaves behind: a row newly settled only on enough confirmations, a seen transaction as it is. */
  predicate SettlesDeep(d: Deal, s: Outgoing, o: Outside, sent: Sent)
  {
    && (sent.rows.status.Settled? ==> s.status.Settled? || (o.chain.Some? && d.minConfirmations <= o.chain.value))
    && (o.chain.Some? ==> sent.outside.chain == o.chain)
  }

  lemma CompletingKeepsChain(d: Deal, role: Role, acks: seq<Option<bool>>, now: int, o: Outside, net: Network)
    ensures var c := TryCompleteBatch(d, role, acks, now, o, net);
      (o.chain.Some? ==> c.outside.chain == o.chain) && (c.reply.Moved? ==> !c.reply.status.Settled?)
  {
  }

  lemma RefreshSettlesDeep(d: Deal, role: Role, s: Outgoing, slots: seq<Option<bool>>, now: int, o: Outside, a: Answers)
    requires |s.acks| == |slots| == |d.recipients|
    ensures SettlesDeep(d, s, o, RefreshOutgoing(d, role, s, slots, now, o, a))
  {
    CompletingKeepsChain(d, role, Polled(d, s.acks, slots), now, o, a.network);
  }

  lemma FailSettlesDeep(d: Deal, role: Role, s: Outgoing, slots: seq<Option<bool>>, now: int, o: Outside, a: Answers)
    requires |s.acks| == |slots| == |d.recipients|
    ensures SettlesDeep(d, s, o, FailOutgoing(d, role, s, slots, now, o, a))
  {
    RefreshSettlesDeep(d, role, s, slots, now, o, a);
  }

  lemma AckSettlesDeep(d: Deal, role: Role, s: Outgoing, i: nat, now: int, o: Outside, net: Network)
    requires i < |s.acks| == |d.recipients|
    ensures SettlesDeep(d, s, o, ProvideAck(d, role, s, i, now, o, net))
  {
    CompletingKeepsChain(d, role, s.acks[i := Some(true)], now, o, net);
  }

  lemma SentSettlesDeep(d: Deal, w: World, e: Event)
    requires Shaped(d, w) && IsSend(w, e)
    ensures SettlesDeep(d, w.senders[e.sender], w.outside, SentBy(d, w, e))
  {
    var j := e.sender;
    match e
    case RefreshSend(_, a, _) => RefreshSettlesDeep(d, d.roles[j], w.senders[j], w.slots, w.now, w.outside, a);
    case FailSend(_, a, _) => FailSettlesDeep(d, d.roles[j], w.senders[j], w.slots, w.now, w.outside, a);
    case GiveAck(_, i, net, _) =>
      if i < |d.recipients| {
        AckSettlesDeep(d, d.roles[j], w.senders[j], i, w.now, w.outside, net);
      }
  }

  lemma ReceivedSettlesDeep(d: Deal, w: World, e: Event)
    requires Shaped(d, w) && IsReceive(w, e)
    ensures ReceivedBy(d, w, e).status.Settled? ==> w.receivers[e.recipient].Settled? || Deep(d, w)
  {
  }

  lemma StepKeepsDeep(d: Deal, w: World, e: Event)
    requires Shaped(d, w) && SettledIsDeep(d, w)
    ensures SettledIsDeep(d, Step(d, w, e)) && (Deep(d, w) ==> Deep(d, Step(d, w, e)))
  {
    if IsSend(w, e) {
      SendStep(d, w, e);
      SentSettlesDeep(d, w, e);
    } else if IsReceive(w, e) {
      ReceiveStep(d, w, e);
      ReceivedSettlesDeep(d, w, e);
    }
  }

  lemma {:induction false} RunKeepsDeep(d: Deal, w: World, events: seq<Event>)
    requires Shaped(d, w) && SettledIsDeep(d, w)
    ensures SettledIsDeep(d, After(d, w, events))
    decreases |events|
  {
    if events != [] {
      StepShaped(d, w, events[0]);
      StepKeepsDeep(d, w, events[0]);
      RunKeepsDeep(d, Step(d, w, events[0]), events[1..]);
    }
  }

  /** In every run a transfer that has settled, at a sender or a recipient, has the confirmations it asks for. */
  lemma SettledHasConfirmations(d: Deal, now: int, events: seq<Event>)
    ensures var w := After(d, NewWorld(d, now), events);
      && (forall j | 0 <= j < |w.senders| && w.senders[j].status.Settled? ::
            w.outside.chain.Some? && d.minConfirmations <= w.outside.chain.value)
      && (forall i | 0 <= i < |w.receivers| && w.receivers[i].Settled? ::
            w.outside.chain.Some? && d.minConfirmations <= w.outside.chain.value)
  {
    RunKeepsDeep(d, NewWorld(d, now), events);
  }

  /** At the very second of its expiration a transfer has not expired; from the next one on it has, for good. */
  lemma ExpiryBoundary(expiration: int, now: int)
    ensures Expired(Some(expiration), now) <==> expiration + 1 <= now
    ensures !Expired(None, now)
  {
  }

  // ---------------------------------------------------------------- refreshing after the broadcast

  /** A sender settles exactly when the confirmations are there, and waits on otherwise. */
  lemma SenderConfirms(d: Deal, w: World, j: nat, a: Answers)
    requires Shaped(d, w) && j < |w.senders| && w.senders[j].status.WaitingConfirmations?
    ensures var after := Step(d, w, RefreshSend(j, a, true));
      && after.senders[j].status == (if Deep(d, w) then Settled else WaitingConfirmations)
      && after.senders[j].acks == w.senders[j].acks && after.outside == w.outside
  {
  }

  /** So does a recipient, which first waits for the network to have the transaction at all. */
  lemma RecipientConfirms(d: Deal, w: World, i: nat)
    requires Shaped(d, w) && i < |w.receivers|
    requires w.receivers[i].WaitingBroadcast? || w.receivers[i].WaitingConfirmations?
    ensures var after := Step(d, w, RefreshReceive(i, true));
      && after.receivers[i] == (if Deep(d, w) then Settled
                                else if w.outside.chain.Some? then WaitingConfirmations else w.receivers[i])
      && after.slots == w.slots
  {
  }

  // ---------------------------------------------------------------- a recipient and its consignment

  /** The verdict on a consignment, and the ACK or NACK that goes with it unless one has been posted. */
  predicate Judged(t: Terms, safe: bool, slot: Option<bool>, status: TransferStatus, slot': Option<bool>)
  {
    if !t.valid then status.Failed? && slot' == (if t.transport.Proxy? && slot.None? then Some(false) else slot)
    else if t.risky && !safe then status.WaitingSafeHeight? && slot' == slot
    else status.WaitingBroadcast? && slot' == (if t.transport.Proxy? && slot.None? then Some(true) else slot)
  }

  /** A consignment is judged once it is there: on a refresh when it comes by the proxy, else on being handed over. */
  lemma RecipientJudges(d: Deal, w: World, i: nat, e: Event)
    requires Shaped(d, w) && i < |w.receivers| && w.receivers[i].WaitingCounterparty?
    requires e == RefreshReceive(i, true) || e == HandOver(i, true)
    ensures var t, after := d.recipients[i], Step(d, w, e);
      if w.posted && (t.transport.Proxy? <==> e.RefreshReceive?)
      then Judged(t, w.safe[i], w.slots[i], after.receivers[i], after.slots[i])
      else after == w
  {
    assert w.receivers[i := w.receivers[i]] == w.receivers && w.slots[i := w.slots[i]] == w.slots;
  }

  /** A deferred one is ACKed as soon as its history is safe, and nothing else is ever taken over. */
  lemma RecipientDefers(d: Deal, w: World, i: nat)
    requires Shaped(d, w) && i < |w.receivers|
    ensures w.receivers[i].WaitingSafeHeight? ==>
      var t, after := d.recipients[i], Step(d, w, RefreshReceive(i, true));
      if t.risky && !w.safe[i] then after == w
      else after.receivers[i].WaitingBroadcast?
           && after.slots[i] == (if t.transport.Proxy? && w.slots[i].None? then Some(true) else w.slots[i])
    ensures !w.receivers[i].WaitingCounterparty? ==> Step(d, w, HandOver(i, true)) == w
  {
    assert w.receivers[i := w.receivers[i]] == w.receivers && w.slots[i := w.slots[i]] == w.slots;
  }

  /** What a refresh would change now. */
  predicate Moves(d: Deal, w: World, i: nat)
    requires i < |w.receivers| == |w.safe| == |d.recipients|
  {
    match w.receivers[i]
    case WaitingCounterparty => d.recipients[i].transport.Proxy? && w.posted
    case WaitingSafeHeight => !d.recipients[i].risky || w.safe[i]
    case WaitingBroadcast => w.outside.chain.Some?
    case WaitingConfirmations => Deep(d, w)
    case _ => false
  }

  /**
   * Failing an incoming transfer: nothing if it is past failing or its broadcast is still awaited; the refresh
   * if that changes something; and only then the failure, with the posted ACK left as it is.
   */
  lemma RecipientFails(d: Deal, w: World, i: nat)
    requires Shaped(d, w) && i < |w.receivers|
    ensures var s, after := w.receivers[i], Step(d, w, FailReceive(i, true));
      if s.WaitingCounterparty? || s.WaitingSafeHeight?
         || (s.WaitingBroadcast? && Expired(d.recipients[i].expiration, w.now))
      then (if Moves(d, w, i) then after == Step(d, w, RefreshReceive(i, true)) && after.receivers[i] != s
            else after == w.(receivers := w.receivers[i := Failed]))
      else s.Initiated? || after == w
  {
    assert w.receivers[i := w.receivers[i]] == w.receivers && w.slots[i := w.slots[i]] == w.slots;
  }

  // ---------------------------------------------------------------- a sender and its ACKs

  /** The recipient's ACK as the sender sees it when it polls: what it has recorded, or what the proxy has. */
  function AckSeen(d: Deal, w: World, j: nat, i: nat): Option<bool>
    requires Shaped(d, w) && j < |w.senders| && i < |d.recipients|
  {
    if w.senders[j].acks[i].Some? then w.senders[j].acks[i]
    else if d.recipients[i].transport.Proxy? then w.slots[i] else None
  }

  ghost predicate SeesAll(d: Deal, w: World, j: nat)
    requires Shaped(d, w) && j < |w.senders|
  {
    forall i | 0 <= i < |d.recipients| :: AckSeen(d, w, j, i) == Some(true)
  }

  ghost predicate SeesNack(d: Deal, w: World, j: nat)
    requires Shaped(d, w) && j < |w.senders|
  {
    exists i :: 0 <= i < |d.recipients| && AckSeen(d, w, j, i) == Some(false)
  }

  lemma PolledIsSeen(d: Deal, w: World, j: nat)
    requires Shaped(d, w) && j < |w.senders|
    ensures var acks := Polled(d, w.senders[j].acks, w.slots);
      && |acks| == |d.recipients| && (forall i | 0 <= i < |acks| :: acks[i] == AckSeen(d, w, j, i))
      && (AllAcked(acks) <==> SeesAll(d, w, j)) && (AnyNacked(acks) <==> SeesNack(d, w, j))
  {
    var acks := Polled(d, w.senders[j].acks, w.slots);
    assert forall i | 0 <= i < |acks| :: acks[i] == AckSeen(d, w, j, i);
  }

  /** The hub stands against failing: a cosigner whose batch it has accepted. */
  predicate HubHolds(role: Role, hub: Option<bool>)
  {
    role.Cosigner? && hub == Some(true)
  }

  /** A failed batch: the row says so, a cosigner has told the hub, and nothing went out. */
  predicate GaveUp(role: Role, before: Outside, status: TransferStatus, after: Outside)
  {
    status.Failed? && after.chain == before.chain && after.hub == (if role.Cosigner? then Some(false) else before.hub)
  }

  /** Refreshing before the broadcast, as long as the proxy answers: the four ways it can go. */
  lemma SenderRefreshes(d: Deal, w: World, j: nat, a: Answers)
    requires Shaped(d, w) && j < |w.senders| == |d.roles| && w.senders[j].status.WaitingCounterparty?
    requires !PollFails(d, w.senders[j].acks, a) && (d.roles[j].Single? || w.outside.hub != Some(false))
    ensures var after := Step(d, w, RefreshSend(j, a, true));
      // a refusal, or all in agreement too late: give up, unless the hub stands against it
      && (SeesNack(d, w, j) || (SeesAll(d, w, j) && Expired(d.expiration, w.now)) ==>
            if HubHolds(d.roles[j], w.outside.hub)
            then after.senders[j].status.WaitingCounterparty? && after.outside == w.outside
            else GaveUp(d.roles[j], w.outside, after.senders[j].status, after.outside))
      // somebody has not answered: keep waiting
      && (!SeesNack(d, w, j) && !SeesAll(d, w, j) ==>
            after.senders[j].status.WaitingCounterparty? && after.outside == w.outside)
      // whatever happens, the ACKs seen are recorded
      && forall i | 0 <= i < |d.recipients| :: after.senders[j].acks[i] == AckSeen(d, w, j, i)
  {
    PolledIsSeen(d, w, j);
  }

  /** A proxy that fails for a row ends the refresh there: the rows polled before it are recorded, no others. */
  lemma ProxyEndsRefresh(d: Deal, w: World, j: nat, a: Answers)
    requires Shaped(d, w) && j < |w.senders| == |d.roles| && w.senders[j].status.WaitingCounterparty?
    requires PollFails(d, w.senders[j].acks, a) && (d.roles[j].Single? || w.outside.hub != Some(false))
    ensures var after := Step(d, w, RefreshSend(j, a, true));
      && after.senders[j].status.WaitingCounterparty? && after.outside == w.outside
      && forall i | 0 <= i < |d.recipients| ::
           after.senders[j].acks[i] == if i < a.proxyFails.value then AckSeen(d, w, j, i) else w.senders[j].acks[i]
    ensures Step(d, w, FailSend(j, a, true)) == w
  {
    assert w.senders[j := w.senders[j]] == w.senders;
  }

  /** A member of a shared wallet follows the hub's refusal before it asks any proxy. */
  lemma RefusalIsFollowed(d: Deal, w: World, j: nat, a: Answers)
    requires Shaped(d, w) && j < |w.senders| == |d.roles| && w.senders[j].status.WaitingCounterparty?
    requires !d.roles[j].Single? && w.outside.hub == Some(false)
    ensures Step(d, w, RefreshSend(j, a, true))
         == w.(senders := w.senders[j := w.senders[j].(status := Failed)])
  {
  }

  /** All in agreement in time: the hub is asked, and if it agrees the network decides. */
  lemma SenderCompletes(d: Deal, w: World, j: nat, a: Answers)
    requires Shaped(d, w) && j < |w.senders| == |d.roles| && w.senders[j].status.WaitingCounterparty?
    requires !PollFails(d, w.senders[j].acks, a) && (d.roles[j].Single? || w.outside.hub != Some(false))
    requires SeesAll(d, w, j) && !SeesNack(d, w, j) && !Expired(d.expiration, w.now)
    ensures var after := Step(d, w, RefreshSend(j, a, true));
      if d.roles[j].WatchOnly? && w.outside.hub.None?
      then after.senders[j].status.WaitingCounterparty? && after.outside == w.outside
      else
        && after.outside.hub == (if d.roles[j].Cosigner? then Some(true) else w.outside.hub)
        && after.senders[j].status == (if a.network.Accepts? then WaitingConfirmations else WaitingCounterparty)
        && (after.outside.chain.Some? <==>
              w.outside.chain.Some? || a.network.Accepts? || (a.network.Loses? && a.network.visible))
  {
    PolledIsSeen(d, w, j);
    Decided(w.outside.hub);
  }

  /** Failing an outgoing transfer that cannot be completed fails it, unless the hub stands against it. */
  lemma SenderFails(d: Deal, w: World, j: nat, a: Answers)
    requires Shaped(d, w) && j < |w.senders| == |d.roles| && !d.roles[j].WatchOnly?
    requires w.senders[j].status.Initiated? || w.senders[j].status.WaitingCounterparty?
    requires w.senders[j].status.WaitingCounterparty? ==>
      !PollFails(d, w.senders[j].acks, a) && (SeesNack(d, w, j) || !SeesAll(d, w, j) || Expired(d.expiration, w.now))
    ensures var after := Step(d, w, FailSend(j, a, true));
      if HubHolds(d.roles[j], w.outside.hub) then after == w
      else GaveUp(d.roles[j], w.outside, after.senders[j].status, after.outside)
  {
    PolledIsSeen(d, w, j);
    Decided(w.outside.hub);
    assert w.senders[j := w.senders[j]] == w.senders;
  }

  /** Failing one that can be completed completes it, but for a network that asks for a higher fee. */
  lemma FailingCompletes(d: Deal, w: World, j: nat, a: Answers)
    requires Shaped(d, w) && j < |w.senders| == |d.roles| && d.roles[j].Single?
    requires w.senders[j].status.WaitingCounterparty? && !PollFails(d, w.senders[j].acks, a)
    requires SeesAll(d, w, j) && !SeesNack(d, w, j) && !Expired(d.expiration, w.now)
    ensures var after := Step(d, w, FailSend(j, a, true));
      match a.network
      case Accepts => after.senders[j].status.WaitingConfirmations? && after.outside.chain.Some?
      case RefusesFee => after.senders[j].status.Failed? && after.outside == w.outside
      case Loses(visible) => after.senders == w.senders
                             && (after.outside.chain.Some? <==> w.outside.chain.Some? || visible)
  {
    PolledIsSeen(d, w, j);
    assert w.senders[j := w.senders[j]] == w.senders;
  }

  /** Past failing, or only watching: failing changes nothing. */
  lemma SenderPastFailing(d: Deal, w: World, j: nat, a: Answers, commits: bool)
    requires Shaped(d, w) && j < |w.senders| == |d.roles|
    requires d.roles[j].WatchOnly? || w.senders[j].status in {WaitingConfirmations, Settled, Failed}
    ensures Step(d, w, FailSend(j, a, commits)) == w
  {
    assert w.senders[j := w.senders[j]] == w.senders;
  }

  /** An ACK by hand counts only for a single wallet that waits, and a recipient without a proxy. */
  lemma AckByHand(d: Deal, w: World, j: nat, i: nat, net: Network)
    requires Shaped(d, w) && j < |w.senders| == |d.roles| && i < |d.recipients|
    ensures var after := Step(d, w, GiveAck(j, i, net, true));
      if !d.roles[j].Single? || !w.senders[j].status.WaitingCounterparty? || d.recipients[i].transport.Proxy?
      then after == w
      else after.senders[j].acks == w.senders[j].acks || after.senders[j].acks == w.senders[j].acks[i := Some(true)]
  {
    assert w.senders[j := w.senders[j]] == w.senders;
  }

  /** It is kept while others are missing, and with the last one the transaction goes out or all is undone. */
  lemma AckByHandDecides(d: Deal, w: World, j: nat, i: nat, net: Network)
    requires Shaped(d, w) && j < |w.senders| == |d.roles| && i < |d.recipients|
    requires d.roles[j].Single? && w.senders[j].status.WaitingCounterparty? && d.recipients[i].transport.OutOfBand?
    requires forall k | 0 <= k < |d.recipients| :: w.senders[j].acks[k] != Some(false)
    ensures var acks, after := w.senders[j].acks[i := Some(true)], Step(d, w, GiveAck(j, i, net, true));
      if exists k :: 0 <= k < |d.recipients| && k != i && w.senders[j].acks[k].None?
      then after.senders[j] == Outgoing(WaitingCounterparty, acks) && after.outside == w.outside
      else if Expired(d.expiration, w.now) then after == w
      else if net.Accepts? then after.senders[j] == Outgoing(WaitingConfirmations, acks) && after.outside.chain.Some?
      else after.senders == w.senders
           && (after.outside.chain.Some? <==> w.outside.chain.Some? || (net.Loses? && net.visible))
  {
    var acks := w.senders[j].acks[i := Some(true)];
    assert !AnyNacked(acks);
    if k :| 0 <= k < |d.recipients| && k != i && w.senders[j].acks[k].None? {
      assert acks[k].None? && !AllAcked(acks);
    } else {
      forall k | 0 <= k < |acks|
        ensures acks[k] == Some(true)
      {
        assert k == i || w.senders[j].acks[k].Some?;
        Decided(w.senders[j].acks[k]);
      }
      assert AllAcked(acks);
    }
    assert w.senders[j := w.senders[j]] == w.senders;
  }
}
