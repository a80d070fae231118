/** Batches that no run can broadcast. */
module ProtocolBlocked {

  import opened Common
  import opened Assignments
  import opened Protocol
  import opened ProtocolSafety
  import opened ProtocolOutcomes

  /** Every recipient that is reached through the proxy is sent a consignment it will accept. */
  ghost predicate ProxiesValid(d: Deal)
  {
    forall i | 0 <= i < |d.recipients| && d.recipients[i].transport.Proxy? :: d.recipients[i].valid
  }

  ghost predicate AllProxied(d: Deal)
  {
    forall i | 0 <= i < |d.recipients| :: d.recipients[i].transport.Proxy?
  }

  ghost predicate SomeCosigner(d: Deal)
  {
    exists j :: 0 <= j < |d.roles| && d.roles[j].Cosigner?
  }

  /** Nobody is bound to refuse, and a shared wallet has who accepts and no ACK that it cannot record. */
  ghost predicate CanBroadcast(d: Deal)
  {
    ProxiesValid(d) && (Solo(d) || (SomeCosigner(d) && AllProxied(d)))
  }

  // ---------------------------------------------------------------- an invalid consignment

  lemma InvalidBlocks(d: Deal, w: World)
    requires Inv(d, w) && !ProxiesValid(d)
    ensures w.outside.chain.None?
  {
    var i :| 0 <= i < |d.recipients| && d.recipients[i].transport.Proxy? && !d.recipients[i].valid;
    assert IncomingInv(d.recipients[i], IncomingOf(w, i), w.posted, w.safe[i], w.now);
    assert w.slots[i] != Some(true);
  }

  // ---------------------------------------------------------------- nobody to accept

  lemma WatchOnlyKeepsHub(d: Deal, w: World, e: Event)
    requires Shaped(d, w) && IsSend(w, e) && d.roles[e.sender].WatchOnly?
    ensures SentBy(d, w, e).outside.hub == w.outside.hub
  {
  }

  lemma {:induction false} NoCosignerNoDecision(d: Deal, w: World, events: seq<Event>)
    requires Inv(d, w) && Shared(d) && !SomeCosigner(d) && w.outside.hub.None?
    ensures After(d, w, events).outside.hub.None?
    decreases |events|
  {
    if events != [] {
      var e := events[0];
      StepKeepsInv(d, w, e);
      if IsSend(w, e) {
        assert !d.roles[e.sender].Single? && !d.roles[e.sender].Cosigner?;
        SendStep(d, w, e);
        WatchOnlyKeepsHub(d, w, e);
      }
      NoCosignerNoDecision(d, Step(d, w, e), events[1..]);
    }
  }

  // ---------------------------------------------------------------- an ACK that cannot be recorded

  /** A shared wallet has no way to record the ACK of a recipient without a proxy. */
  ghost predicate Unrecorded(d: Deal, w: World, i: nat)
  {
    && Inv(d, w) && Shared(d) && i < |d.recipients| && d.recipients[i].transport.OutOfBand?
    && w.outside.chain.None? && forall j | 0 <= j < |w.senders| :: w.senders[j].acks[i].None?
  }

  lemma SentStaysUnrecorded(d: Deal, w: World, i: nat, e: Event)
    requires Unrecorded(d, w, i) && IsSend(w, e) && !d.roles[e.sender].Single?
    ensures |SentBy(d, w, e).rows.acks| == |d.recipients| && SentBy(d, w, e).rows.acks[i].None?
    ensures e.GiveAck? ==> SentBy(d, w, e).outside == w.outside
  {
  }

  lemma TriedLacksOne(d: Deal, w: World, i: nat, e: Event)
    requires Unrecorded(d, w, i) && IsSend(w, e) && !e.GiveAck?
    ensures !AllAcked(RowsTried(d, w, e))
  {
    assert RowsTried(d, w, e)[i].None?;
  }

  lemma StepStaysUnrecorded(d: Deal, w: World, i: nat, e: Event)
    requires WellFormed(d) && Unrecorded(d, w, i)
    ensures Unrecorded(d, Step(d, w, e), i)
  {
    StepKeepsInv(d, w, e);
    if IsSend(w, e) {
      SendStep(d, w, e);
      SentStaysUnrecorded(d, w, i, e);
      if !e.GiveAck? {
        TriedLacksOne(d, w, i, e);
      }
      if Step(d, w, e).outside.chain.Some? {
        BroadcastNeedsAllAcks(d, w, e);
      }
    }
  }

  lemma {:induction false} UnrecordedBlocks(d: Deal, w: World, i: nat, events: seq<Event>)
    requires WellFormed(d) && Unrecorded(d, w, i)
    ensures After(d, w, events).outside.chain.None?
    decreases |events|
  {
    if events != [] {
      StepStaysUnrecorded(d, w, i, events[0]);
      UnrecordedBlocks(d, Step(d, w, events[0]), i, events[1..]);
    }
  }

  /** No run of any other batch has its transaction on the network. */
  lemma NeverBroadcast(d: Deal, now: int, events: seq<Event>)
    requires WellFormed(d) && !CanBroadcast(d)
    ensures After(d, NewWorld(d, now), events).outside.chain.None?
  {
    var start := NewWorld(d, now);
    StartInv(d, now);
    RunKeepsInv(d, start, events);
    if !ProxiesValid(d) {
      InvalidBlocks(d, After(d, start, events));
    } else if !SomeCosigner(d) {
      NoCosignerNoDecision(d, start, events);
    } else {
      var i :| 0 <= i < |d.recipients| && !d.recipients[i].transport.Proxy?;
      UnrecordedBlocks(d, start, i, events);
    }
  }
}
