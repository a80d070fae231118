/** When a batch is broadcast, when it fails, and what the protocol does not rule out. */
module ProtocolOutcomes {

  import opened Common
  import opened Assignments
  import opened Protocol
  import opened ProtocolSafety

  // ---------------------------------------------------------------- broadcast and NACK

  /** The ACKs a sender's operation tries to complete its batch with. */
  function RowsTried(d: Deal, w: World, e: Event): seq<Option<bool>>
    requires |w.slots| == |d.recipients| && IsSend(w, e) && |w.senders[e.sender].acks| == |d.recipients|
  {
    var acks := w.senders[e.sender].acks;
    if e.GiveAck? then (if e.recipient < |acks| then acks[e.recipient := Some(true)] else acks)
    else Polled(d, acks, w.slots)
  }

  /** The network first sees the transaction when all recipients have ACKed and the batch has not expired. */
  lemma BroadcastNeedsAllAcks(d: Deal, w: World, e: Event)
    requires Inv(d, w) && WellFormed(d) && w.outside.chain.None? && Step(d, w, e).outside.chain.Some?
    ensures IsSend(w, e) && AllAcked(RowsTried(d, w, e)) && ProxiesAcked(d, w.slots)
    ensures !Expired(d.expiration, w.now) && w.senders[e.sender].status.WaitingCounterparty?
    ensures !d.roles[e.sender].Single? ==> Step(d, w, e).outside.hub == Some(true)
  {
    if IsSend(w, e) {
      SendStep(d, w, e);
      SentKeeps(d, w, e);
      RolesFit(d, e.sender);
      assert StatusInv(d.roles[e.sender], w.senders[e.sender].status, w.outside);
    } else if IsReceive(w, e) {
      SlotsKept(d, w, e);
    }
  }

  /** A batch that sees a NACK is failed: the hub can never have accepted it. */
  lemma NackFails(d: Deal, w: World, j: nat, a: Answers)
    requires Inv(d, w) && WellFormed(d) && j < |d.roles| && w.senders[j].status.WaitingCounterparty?
    requires !PollFails(d, w.senders[j].acks, a) && AnyNacked(Polled(d, w.senders[j].acks, w.slots))
    ensures var after := Step(d, w, RefreshSend(j, a, true));
      && after.senders[j].status == Failed && after.outside.chain.None?
      && (d.roles[j].Cosigner? ==> after.outside.hub == Some(false))
  {
    var acks := Polled(d, w.senders[j].acks, w.slots);
    var i :| 0 <= i < |acks| && acks[i] == Some(false);
    PolledKeeps(d, w.senders[j].acks, w.slots);
    assert RowInv(d.recipients[i], acks[i], w.slots[i]);
    assert w.slots[i] == Some(false) && !ProxiesAcked(d, w.slots);
    Decided(w.outside.hub);
  }

  /** After a NACK reaches the proxy, no continuation broadcasts the transaction. */
  lemma NackedNeverBroadcast(d: Deal, now: int, before: seq<Event>, after: seq<Event>, i: nat)
    requires WellFormed(d) && i < |d.recipients|
    requires After(d, NewWorld(d, now), before).slots[i] == Some(false)
    ensures After(d, After(d, NewWorld(d, now), before), after).outside.chain.None?
  {
    StartInv(d, now);
    RunKeepsInv(d, NewWorld(d, now), before);
    var w := After(d, NewWorld(d, now), before);
    RunKeepsInv(d, w, after);
    RunExtends(d, w, after);
    assert IncomingInv(d.recipients[i], IncomingOf(w, i), w.posted, w.safe[i], w.now);
    assert After(d, w, after).slots[i] == Some(false);
  }

  // ---------------------------------------------------------------- a cosigner that comes late

  /** A cosigner that has not seen the hub's acceptance before the expiration. */
  ghost predicate Late(d: Deal, w: World, j: nat)
  {
    && Inv(d, w) && j < |d.roles| && d.roles[j].Cosigner? && w.senders[j].status.WaitingCounterparty?
    && w.outside.hub == Some(true) && Expired(d.expiration, w.now)
  }

  lemma LateStep(d: Deal, w: World, j: nat, e: Event)
    requires WellFormed(d) && Late(d, w, j)
    ensures Late(d, Step(d, w, e), j)
  {
    StepKeepsInv(d, w, e);
    StepExtends(d, w, e);
    if IsSend(w, e) {
      SendStep(d, w, e);
      if e.sender == j {
        LateOutgoing(d, w, j, e);
      }
    }
  }

  lemma LateOutgoing(d: Deal, w: World, j: nat, e: Event)
    requires WellFormed(d) && Late(d, w, j) && IsSend(w, e) && e.sender == j
    ensures SentBy(d, w, e).rows.status == WaitingCounterparty
  {
    var acks := Polled(d, w.senders[j].acks, w.slots);
    PolledKeeps(d, w.senders[j].acks, w.slots);
    forall i | 0 <= i < |acks|
      ensures acks[i] != Some(false)
    {
      assert RowInv(d.recipients[i], acks[i], w.slots[i]);
    }
  }

  /**
   * Such a cosigner is stuck: no refresh, fail or other event of any run ever moves its transfer again,
   * since the expired batch is failed first and the hub refuses that.
   */
  lemma {:induction false} LateCosignerStuck(d: Deal, w: World, j: nat, events: seq<Event>)
    requires WellFormed(d) && Late(d, w, j)
    ensures After(d, w, events).senders[j].status == WaitingCounterparty
    decreases |events|
  {
    if events != [] {
      LateStep(d, w, j, events[0]);
      LateCosignerStuck(d, Step(d, w, events[0]), j, events[1..]);
    }
  }

  // ---------------------------------------------------------------- exactly who still follows the hub

  /** The recipients of a shared wallet's batch, which refuses to send out of band. */
  ghost predicate AllProxied(d: Deal)
  {
    forall i | 0 <= i < |d.recipients| :: d.recipients[i].transport.Proxy?
  }

  /** A wallet that is still to learn that the hub has accepted its batch. */
  ghost predicate Unaware(d: Deal, w: World, j: nat)
  {
    && Inv(d, w) && j < |d.roles| && w.senders[j].status.WaitingCounterparty?
    && w.outside.hub == Some(true) && AllProxied(d)
  }

  /** Such a wallet finds every ACK at the proxy. */
  lemma AcceptedIsAcked(d: Deal, w: World, j: nat)
    requires Unaware(d, w, j)
    ensures var acks := Polled(d, w.senders[j].acks, w.slots); AllAcked(acks) && !AnyNacked(acks)
  {
    var acks := Polled(d, w.senders[j].acks, w.slots);
    PolledKeeps(d, w.senders[j].acks, w.slots);
    forall i | 0 <= i < |acks|
      ensures acks[i] == Some(true)
    {
      assert RowInv(d.recipients[i], w.senders[j].acks[i], w.slots[i]);
    }
  }

  /** Its next refresh follows the hub or, past the expiration, turns to failing. */
  lemma NextRefreshDecides(d: Deal, w: World, j: nat)
    requires WellFormed(d) && Unaware(d, w, j)
    ensures Step(d, w, RefreshSend(j, ALL_WELL, true)).senders[j].status ==
      if !Expired(d.expiration, w.now) then WaitingConfirmations
      else if d.roles[j].WatchOnly? then Failed else WaitingCounterparty
  {
    AcceptedIsAcked(d, w, j);
    RolesFit(d, j);
  }

  lemma OneEvent(d: Deal, w: World, e: Event)
    requires Shaped(d, w)
    ensures After(d, w, [e]) == Step(d, w, e)
  {
    Twice(d, w, e, e);
  }

  /**
   * A cosigner that does not know of the acceptance yet can still complete its transfer, in some run, if
   * and only if the batch has not expired.
   */
  lemma CosignerCatchesUpIff(d: Deal, w: World, j: nat)
    requires WellFormed(d) && Unaware(d, w, j) && d.roles[j].Cosigner?
    ensures (exists events :: ProtocolSafety.Completed(After(d, w, events).senders[j].status))
      <==> !Expired(d.expiration, w.now)
  {
    if Expired(d.expiration, w.now) {
      forall events
        ensures !ProtocolSafety.Completed(After(d, w, events).senders[j].status)
      {
        LateCosignerStuck(d, w, j, events);
      }
    } else {
      var e := RefreshSend(j, ALL_WELL, true);
      NextRefreshDecides(d, w, j);
      OneEvent(d, w, e);
      assert ProtocolSafety.Completed(After(d, w, [e]).senders[j].status);
    }
  }

  /** A watch-only user's wallet of an accepted batch that never expires. */
  ghost predicate Following(d: Deal, w: World, j: nat)
  {
    && Inv(d, w) && j < |d.roles| && d.roles[j].WatchOnly? && d.expiration.None?
    && w.outside.hub == Some(true) && !w.senders[j].status.Failed?
  }

  lemma FollowingStep(d: Deal, w: World, j: nat, e: Event)
    requires WellFormed(d) && Following(d, w, j)
    ensures Following(d, Step(d, w, e), j)
  {
    StepKeepsInv(d, w, e);
    StepExtends(d, w, e);
    if IsSend(w, e) {
      SendStep(d, w, e);
      if e.sender == j {
        NoNackAccepted(d, w, j);
      }
    }
  }

  /** Once the hub has accepted, there is no NACK to find. */
  lemma NoNackAccepted(d: Deal, w: World, j: nat)
    requires Inv(d, w) && j < |d.roles| && w.outside.hub == Some(true)
    ensures !AnyNacked(Polled(d, w.senders[j].acks, w.slots))
  {
    var acks := Polled(d, w.senders[j].acks, w.slots);
    PolledKeeps(d, w.senders[j].acks, w.slots);
    forall i | 0 <= i < |acks|
      ensures acks[i] != Some(false)
    {
      assert RowInv(d.recipients[i], acks[i], w.slots[i]);
    }
  }

  lemma {:induction false} FollowingRun(d: Deal, w: World, j: nat, events: seq<Event>)
    requires WellFormed(d) && Following(d, w, j)
    ensures !After(d, w, events).senders[j].status.Failed?
    decreases |events|
  {
    if events != [] {
      FollowingStep(d, w, j, events[0]);
      FollowingRun(d, Step(d, w, events[0]), j, events[1..]);
    }
  }

  /** Looking too late, a watch-only user fails an accepted batch. */
  lemma LateWatchOnlyFails(d: Deal, w: World, j: nat, late: int)
    requires WellFormed(d) && Unaware(d, w, j) && d.roles[j].WatchOnly?
    requires w.now <= late && Expired(d.expiration, late)
    ensures After(d, w, [Tick(late), RefreshSend(j, ALL_WELL, true)]).senders[j].status == Failed
  {
    Twice(d, w, Tick(late), RefreshSend(j, ALL_WELL, true));
    StepKeepsInv(d, w, Tick(late));
    NextRefreshDecides(d, Step(d, w, Tick(late)), j);
  }

  /** A watch-only user can still end against the hub, in some run, if and only if the batch expires at all. */
  lemma WatchOnlyFailsIff(d: Deal, w: World, j: nat)
    requires WellFormed(d) && Unaware(d, w, j) && d.roles[j].WatchOnly?
    ensures (exists events :: After(d, w, events).senders[j].status == Failed) <==> d.expiration.Some?
  {
    if d.expiration.Some? {
      var late := if w.now <= d.expiration.value then d.expiration.value + 1 else w.now;
      LateWatchOnlyFails(d, w, j, late);
    } else {
      forall events
        ensures After(d, w, events).senders[j].status != Failed
      {
        FollowingRun(d, w, j, events);
      }
    }
  }

  // ---------------------------------------------------------------- two concrete runs

  const ONE_PROXY := Terms(Proxy, true, false, None)

  function SharedDeal(second: Role): Deal
  {
    Deal([ONE_PROXY], [Cosigner, second], Some(10), 1)
  }

  /** The first cosigner broadcasts in time, the second wallet looks only after the expiration. */
  function OneInTime(second: Role): World
  {
    World(11, [Outgoing(WaitingConfirmations, [Some(true)]), Outgoing(WaitingCounterparty, [None])],
          [WaitingBroadcast], [Some(true)], [false], true, Outside(Some(true), Some(0)))
  }

  const BOTH_SEND: seq<Event> := [SendEnd(0, true), SendEnd(1, true)]
  const ACK_AND_BROADCAST: seq<Event> := [RefreshReceive(0, true), RefreshSend(0, ALL_WELL, true)]
  const IN_TIME: seq<Event> := BOTH_SEND + ACK_AND_BROADCAST + [Tick(11)]

  /** Both wallets have sent, at time 0. */
  function BothSent(): World
  {
    var waiting := Outgoing(WaitingCounterparty, [None]);
    World(0, [waiting, waiting], [WaitingCounterparty], [None], [false], true, Outside(None, None))
  }

  lemma BothSend(second: Role)
    ensures After(SharedDeal(second), NewWorld(SharedDeal(second), 0), BOTH_SEND) == BothSent()
  {
    var d := SharedDeal(second);
    var w := NewWorld(d, 0);
    assert NewSender(1).acks == [None];
    assert |w.senders| == 2 && w.senders[0] == NewSender(1) && w.senders[1] == NewSender(1);
    assert w.senders == [NewSender(1), NewSender(1)];
    assert w.receivers == [WaitingCounterparty] && w.slots == [None] && w.safe == [false];
    Twice(d, w, SendEnd(0, true), SendEnd(1, true));
  }

  lemma AckAndBroadcast(second: Role)
    ensures Shaped(SharedDeal(second), BothSent())
    ensures After(SharedDeal(second), BothSent(), ACK_AND_BROADCAST) == OneInTime(second).(now := 0)
  {
    var d := SharedDeal(second);
    var w := BothSent();
    var acked := w.(receivers := [WaitingBroadcast], slots := [Some(true)]);
    assert Step(d, w, RefreshReceive(0, true)) == acked by {
      assert RefreshIncoming(ONE_PROXY, ViewOf(d, w, 0), IncomingOf(w, 0)) == Incoming(WaitingBroadcast, Some(true));
      assert w.receivers[0 := WaitingBroadcast] == [WaitingBroadcast];
      assert w.slots[0 := Some(true)] == [Some(true)];
    }
    assert Polled(d, [None], [Some(true)]) == [Some(true)];
    Twice(d, w, RefreshReceive(0, true), RefreshSend(0, ALL_WELL, true));
  }

  lemma InTimeRun(second: Role)
    ensures After(SharedDeal(second), NewWorld(SharedDeal(second), 0), IN_TIME) == OneInTime(second)
  {
    var d := SharedDeal(second);
    BothSend(second);
    AckAndBroadcast(second);
    Twice(d, OneInTime(second).(now := 0), Tick(11), Tick(11));
    RunsInTurn(d, NewWorld(d, 0), BOTH_SEND, ACK_AND_BROADCAST);
    RunsInTurn(d, NewWorld(d, 0), BOTH_SEND + ACK_AND_BROADCAST, [Tick(11)]);
  }

  /** The stuck state is reachable, with the transaction on the network. */
  lemma LateCosignerArises()
    ensures WellFormed(SharedDeal(Cosigner))
    ensures Late(SharedDeal(Cosigner), After(SharedDeal(Cosigner), NewWorld(SharedDeal(Cosigner), 0), IN_TIME), 1)
  {
    var d := SharedDeal(Cosigner);
    InTimeRun(Cosigner);
    StartInv(d, 0);
    RunKeepsInv(d, NewWorld(d, 0), IN_TIME);
  }

  /** A watch-only user can end on Failed although the hub has accepted and the transaction is out. */
  lemma WatchOnlyCanDisagree()
    ensures var d := SharedDeal(WatchOnly);
      var w := After(d, After(d, NewWorld(d, 0), IN_TIME), [RefreshSend(1, ALL_WELL, true)]);
      w.senders[1].status == Failed && w.senders[0].status == WaitingConfirmations
      && w.outside == Outside(Some(true), Some(0))
  {
    var d := SharedDeal(WatchOnly);
    InTimeRun(WatchOnly);
    var w := OneInTime(WatchOnly);
    assert Polled(d, [None], [Some(true)]) == [Some(true)];
    Twice(d, w, RefreshSend(1, ALL_WELL, true), Confirm);
  }
}
