/** Which batches can be broadcast at all, and that their recipients are safe exactly when the sender gives up first. */
module ProtocolTiming {

  import opened Common
  import opened Assignments
  import opened Protocol
  import opened ProtocolSafety
  import opened ProtocolOutcomes
  import opened ProtocolBlocked

  /** The transaction is on the network and the recipient has failed the transfer. */
  predicate Harmed(d: Deal, w: World, i: nat)
    requires i < |d.recipients| == |w.receivers|
  {
    d.recipients[i].transport.Proxy? && w.outside.chain.Some? && w.receivers[i].Failed?
  }

  /** The single wallet, or a cosigner of a shared one. */
  predicate Leads(d: Deal, c: nat)
  {
    c < |d.roles| && !d.roles[c].WatchOnly?
  }

  lemma SomeoneLeads(d: Deal) returns (c: nat)
    requires CanBroadcast(d)
    ensures Leads(d, c)
  {
    if Solo(d) {
      c := 0;
    } else {
      c :| 0 <= c < |d.roles| && d.roles[c].Cosigner?;
    }
  }

  // ---------------------------------------------------------------- every recipient ACKs

  function AckOne(d: Deal, c: nat, i: nat): seq<Event>
    requires i < |d.recipients|
  {
    if d.recipients[i].transport.OutOfBand? then [GiveAck(c, i, Accepts, true)]
    else [BecomeSafe(i), RefreshReceive(i, true)]
  }

  function AckFirst(d: Deal, c: nat, m: nat): seq<Event>
    requires m <= |d.recipients|
  {
    if m == 0 then [] else AckFirst(d, c, m - 1) + AckOne(d, c, m - 1)
  }

  /** The first m recipients have ACKed, by the proxy or by hand; the leading wallet has not polled the proxy. */
  ghost predicate Prepared(d: Deal, c: nat, w: World, m: nat, now: int)
  {
    && Shaped(d, w) && c < |w.senders| && w.now == now && w.posted && w.outside == Outside(None, None)
    && w.senders[c].status.WaitingCounterparty?
    && forall i | 0 <= i < |d.recipients| :: PreparedRow(d.recipients[i], c, w, i, i < m)
  }

  predicate PreparedRow(t: Terms, c: nat, w: World, i: nat, acked: bool)
    requires i < |w.receivers| == |w.slots| && c < |w.senders| && i < |w.senders[c].acks|
  {
    && w.senders[c].acks[i] == (if t.transport.OutOfBand? && acked then Some(true) else None)
    && w.slots[i] == (if t.transport.Proxy? && acked then Some(true) else None)
    && w.receivers[i] == (if t.transport.Proxy? && acked then WaitingBroadcast else WaitingCounterparty)
  }

  /** By hand, as long as some other row has no ACK yet. */
  lemma OneMoreByHand(d: Deal, c: nat, w: World, m: nat, now: int, k: nat)
    requires WellFormed(d) && CanBroadcast(d) && Leads(d, c) && Prepared(d, c, w, m, now)
    requires m < |d.recipients| && d.recipients[m].transport.OutOfBand?
    requires k < |d.recipients| && k != m && (d.recipients[k].transport.Proxy? || m < k)
    ensures Prepared(d, c, After(d, w, AckOne(d, c, m)), m + 1, now)
  {
    var e := GiveAck(c, m, Accepts, true);
    Twice(d, w, e, e);
    assert d.roles[c].Single?;
    var acks := w.senders[c].acks[m := Some(true)];
    assert PreparedRow(d.recipients[k], c, w, k, k < m) && acks[k] == None;
    assert PreparedRow(d.recipients[m], c, w, m, false);
    assert !AnyNacked(acks) by {
      forall i | 0 <= i < |acks|
        ensures acks[i] != Some(false)
      {
        assert i == m || PreparedRow(d.recipients[i], c, w, i, i < m);
      }
    }
    var after := w.(senders := w.senders[c := Outgoing(WaitingCounterparty, acks)]);
    assert Step(d, w, e) == after;
    forall i | 0 <= i < |d.recipients| && i != m
      ensures PreparedRow(d.recipients[i], c, after, i, i < m + 1)
    {
      assert PreparedRow(d.recipients[i], c, w, i, i < m);
    }
  }

  lemma OneMoreByProxy(d: Deal, c: nat, w: World, m: nat, now: int)
    requires CanBroadcast(d) && Prepared(d, c, w, m, now)
    requires m < |d.recipients| && d.recipients[m].transport.Proxy?
    ensures Prepared(d, c, After(d, w, AckOne(d, c, m)), m + 1, now)
  {
    Twice(d, w, BecomeSafe(m), RefreshReceive(m, true));
    assert PreparedRow(d.recipients[m], c, w, m, false);
    var after := w.(safe := w.safe[m := true], receivers := w.receivers[m := WaitingBroadcast],
                    slots := w.slots[m := Some(true)]);
    assert After(d, w, AckOne(d, c, m)) == after;
    forall i | 0 <= i < |d.recipients| && i != m
      ensures PreparedRow(d.recipients[i], c, after, i, i < m + 1)
    {
      assert PreparedRow(d.recipients[i], c, w, i, i < m);
    }
  }

  lemma {:induction false} AckedFirst(d: Deal, c: nat, w: World, m: nat, now: int, k: nat)
    requires WellFormed(d) && CanBroadcast(d) && Leads(d, c) && Prepared(d, c, w, 0, now) && m <= |d.recipients|
    requires k < |d.recipients| && (d.recipients[k].transport.Proxy? || m <= k)
    ensures Prepared(d, c, After(d, w, AckFirst(d, c, m)), m, now)
  {
    if m == 0 {
      assert After(d, w, []) == w;
    } else {
      AckedFirst(d, c, w, m - 1, now, k);
      var v := After(d, w, AckFirst(d, c, m - 1));
      if d.recipients[m - 1].transport.OutOfBand? {
        OneMoreByHand(d, c, v, m - 1, now, k);
      } else {
        OneMoreByProxy(d, c, v, m - 1, now);
      }
      RunsInTurn(d, w, AckFirst(d, c, m - 1), AckOne(d, c, m - 1));
    }
  }

  lemma Posted(d: Deal, c: nat, now: int)
    requires Leads(d, c)
    ensures Prepared(d, c, After(d, NewWorld(d, now), [SendEnd(c, true)]), 0, now)
  {
    var w := NewWorld(d, now);
    Twice(d, w, SendEnd(c, true), SendEnd(c, true));
  }

  /** From a new batch to the point where the first m recipients have ACKed. */
  function AckRun(d: Deal, c: nat, m: nat): seq<Event>
    requires m <= |d.recipients|
  {
    [SendEnd(c, true)] + AckFirst(d, c, m)
  }

  lemma AckedBy(d: Deal, c: nat, now: int, m: nat, k: nat)
    requires WellFormed(d) && CanBroadcast(d) && Leads(d, c) && m <= |d.recipients|
    requires m == 0 || (k < |d.recipients| && (d.recipients[k].transport.Proxy? || m <= k))
    ensures Prepared(d, c, After(d, NewWorld(d, now), AckRun(d, c, m)), m, now)
  {
    Posted(d, c, now);
    var posted := After(d, NewWorld(d, now), [SendEnd(c, true)]);
    if m == 0 {
      assert After(d, posted, []) == posted;
    } else {
      AckedFirst(d, c, posted, m, now, k);
    }
    RunsInTurn(d, NewWorld(d, now), [SendEnd(c, true)], AckFirst(d, c, m));
  }

  // ---------------------------------------------------------------- the harmful end

  /** Once all have ACKed, a refresh of the leading wallet before the expiration broadcasts. */
  lemma RefreshBroadcasts(d: Deal, c: nat, w: World)
    requires WellFormed(d) && CanBroadcast(d) && Leads(d, c) && Shaped(d, w)
    requires w.senders[c].status.WaitingCounterparty? && w.outside == Outside(None, None)
    requires AllAcked(Polled(d, w.senders[c].acks, w.slots)) && !Expired(d.expiration, w.now)
    ensures var after := After(d, w, [RefreshSend(c, ALL_WELL, true)]);
      after.outside.chain.Some? && after.receivers == w.receivers
  {
    Twice(d, w, RefreshSend(c, ALL_WELL, true), Confirm);
    var acks := Polled(d, w.senders[c].acks, w.slots);
    assert !AnyNacked(acks);
  }

  lemma PreparedAcked(d: Deal, c: nat, w: World, now: int)
    requires Prepared(d, c, w, |d.recipients|, now)
    ensures AllAcked(Polled(d, w.senders[c].acks, w.slots))
  {
    var acks := Polled(d, w.senders[c].acks, w.slots);
    forall i | 0 <= i < |acks|
      ensures acks[i] == Some(true)
    {
      assert PreparedRow(d.recipients[i], c, w, i, true);
    }
  }

  lemma GivenUp(d: Deal, c: nat, w: World, k: nat, now: int)
    requires Prepared(d, c, w, |d.recipients|, now)
    requires k < |d.recipients| && d.recipients[k].transport.Proxy? && d.recipients[k].expiration == Some(now)
    ensures After(d, w, [Tick(now + 1), FailReceive(k, true)])
         == w.(now := now + 1, receivers := w.receivers[k := Failed])
  {
    assert PreparedRow(d.recipients[k], c, w, k, true);
    Twice(d, w, Tick(now + 1), FailReceive(k, true));
    assert w.slots[k := w.slots[k]] == w.slots;
  }

  /** A recipient that expires first gives up, then the sender broadcasts. */
  function HarmfulEnd(c: nat, k: nat, now: int): seq<Event>
  {
    [Tick(now + 1), FailReceive(k, true)] + [RefreshSend(c, ALL_WELL, true)]
  }

  lemma GivesUpFirst(d: Deal, c: nat, w: World, k: nat, now: int)
    requires WellFormed(d) && CanBroadcast(d) && Leads(d, c) && Prepared(d, c, w, |d.recipients|, now)
    requires k < |d.recipients| && d.recipients[k].transport.Proxy?
    requires d.recipients[k].expiration == Some(now) && !NotAfter(d.expiration, Some(now))
    ensures Harmed(d, After(d, w, HarmfulEnd(c, k, now)), k)
  {
    GivenUp(d, c, w, k, now);
    PreparedAcked(d, c, w, now);
    var failed := After(d, w, [Tick(now + 1), FailReceive(k, true)]);
    RefreshBroadcasts(d, c, failed);
    RunsInTurn(d, w, [Tick(now + 1), FailReceive(k, true)], [RefreshSend(c, ALL_WELL, true)]);
  }

  function HarmfulRun(d: Deal, c: nat, k: nat, now: int): seq<Event>
  {
    AckRun(d, c, |d.recipients|) + HarmfulEnd(c, k, now)
  }

  /** Whoever leads, single wallet or cosigner, a recipient that expires before the sender can be harmed. */
  lemma LateSenderHarms(d: Deal, c: nat, k: nat, now: int)
    requires WellFormed(d) && CanBroadcast(d) && Leads(d, c)
    requires k < |d.recipients| && d.recipients[k].transport.Proxy?
    requires d.recipients[k].expiration == Some(now) && !NotAfter(d.expiration, Some(now))
    ensures Harmed(d, After(d, NewWorld(d, now), HarmfulRun(d, c, k, now)), k)
  {
    AckedBy(d, c, now, |d.recipients|, k);
    GivesUpFirst(d, c, After(d, NewWorld(d, now), AckRun(d, c, |d.recipients|)), k, now);
    RunsInTurn(d, NewWorld(d, now), AckRun(d, c, |d.recipients|), HarmfulEnd(c, k, now));
  }

  /** No run from any starting time harms any recipient. */
  ghost predicate NeverHarms(d: Deal)
  {
    forall now: int, events: seq<Event>, i: nat | i < |d.recipients| ::
      !Harmed(d, After(d, NewWorld(d, now), events), i)
  }

  /**
   * For any batch of a single or a shared wallet: no run has the transaction on the network against a failed
   * proxy recipient if and only if the sender's expiration is at most each of theirs, or the batch is one
   * that no run broadcasts.
   */
  lemma SafeIffWellTimed(d: Deal)
    requires WellFormed(d)
    ensures NeverHarms(d) <==> WellTimed(d) || !CanBroadcast(d)
  {
    if WellTimed(d) || !CanBroadcast(d) {
      forall now: int, events: seq<Event>, i: nat | i < |d.recipients|
        ensures !Harmed(d, After(d, NewWorld(d, now), events), i)
      {
        if !CanBroadcast(d) {
          NeverBroadcast(d, now, events);
        } else if d.recipients[i].transport.Proxy? {
          NoBroadcastAgainstFailed(d, now, events, i);
        }
      }
    } else {
      var k :| 0 <= k < |d.recipients| && d.recipients[k].transport.Proxy?
               && !NotAfter(d.expiration, d.recipients[k].expiration);
      var now := d.recipients[k].expiration.value;
      var c := SomeoneLeads(d);
      LateSenderHarms(d, c, k, now);
      assert Harmed(d, After(d, NewWorld(d, now), HarmfulRun(d, c, k, now)), k);
    }
  }

  // ---------------------------------------------------------------- which batches can be broadcast

  /** Some run has the transaction on the network. */
  ghost predicate BroadcastPossible(d: Deal)
  {
    exists now: int, events: seq<Event> :: After(d, NewWorld(d, now), events).outside.chain.Some?
  }

  lemma RefreshEndsRun(d: Deal, c: nat, now: int, k: nat)
    requires WellFormed(d) && CanBroadcast(d) && Leads(d, c) && !Expired(d.expiration, now)
    requires d.recipients == [] || (k < |d.recipients| && d.recipients[k].transport.Proxy?)
    ensures BroadcastPossible(d)
  {
    var n := |d.recipients|;
    AckedBy(d, c, now, n, k);
    var w := After(d, NewWorld(d, now), AckRun(d, c, n));
    PreparedAcked(d, c, w, now);
    RefreshBroadcasts(d, c, w);
    RunsInTurn(d, NewWorld(d, now), AckRun(d, c, n), [RefreshSend(c, ALL_WELL, true)]);
  }

  /** Without any proxy the last ACK given by hand broadcasts. */
  lemma LastAckEndsRun(d: Deal, now: int)
    requires Solo(d) && CanBroadcast(d) && !Expired(d.expiration, now) && d.recipients != []
    requires forall i | 0 <= i < |d.recipients| :: d.recipients[i].transport.OutOfBand?
    ensures BroadcastPossible(d)
  {
    var n := |d.recipients| - 1;
    AckedBy(d, 0, now, n, n);
    var w := After(d, NewWorld(d, now), AckRun(d, 0, n));
    var e := GiveAck(0, n, Accepts, true);
    Twice(d, w, e, e);
    var acks := w.senders[0].acks[n := Some(true)];
    forall i | 0 <= i < |acks|
      ensures acks[i] == Some(true)
    {
      assert i == n || PreparedRow(d.recipients[i], 0, w, i, true);
    }
    assert AllAcked(acks) && !AnyNacked(acks);
    RunsInTurn(d, NewWorld(d, now), AckRun(d, 0, n), [e]);
  }

  /** Some run broadcasts a batch if and only if no proxy recipient refuses it and its wallet can complete it. */
  lemma BroadcastPossibleIff(d: Deal)
    requires WellFormed(d)
    ensures BroadcastPossible(d) <==> CanBroadcast(d)
  {
    if CanBroadcast(d) {
      var c := SomeoneLeads(d);
      var now := if d.expiration.Some? then d.expiration.value else 0;
      if d.recipients == [] || !Solo(d) {
        RefreshEndsRun(d, c, now, 0);
      } else if k :| 0 <= k < |d.recipients| && d.recipients[k].transport.Proxy? {
        RefreshEndsRun(d, c, now, k);
      } else {
        LastAckEndsRun(d, now);
      }
    } else if BroadcastPossible(d) {
      var now: int, events: seq<Event> :| After(d, NewWorld(d, now), events).outside.chain.Some?;
      NeverBroadcast(d, now, events);
    }
  }
}
