/** The wallets' refresh and fail operations on their rows, proved to be the protocol's steps. */
module ProtocolWallets {

  import opened Common
  import opened Assignments
  import opened Protocol
  import Safety = ProtocolSafety

  /** The hub's register for one transfer. */
  class Hub {
    var decision: Option<bool>

    constructor ()
      ensures decision == None
    {
      decision := None;
    }

    /** Setting a decision again is fine; a different one is refused. */
    method SetTransferStatus(accepted: bool) returns (mismatch: bool)
      modifies this
      ensures decision == Post(old(decision), accepted)
      ensures !mismatch ==> decision == Some(accepted)
      ensures mismatch ==> decision == old(decision) == Some(!accepted)
    {
      if decision.None? {
        decision := Some(accepted);
      }
      mismatch := decision.value != accepted;
    }
  }

  class Blockchain {
    var chain: Chain

    constructor ()
      ensures chain == None
    {
      chain := None;
    }
  }

  class SendingWallet {
    const deal: Deal
    const role: Role
    const hub: Hub
    const blockchain: Blockchain
    const acks: array<Option<bool>>
    var status: TransferStatus

    ghost predicate Valid()
    {
      acks.Length == |deal.recipients|
    }

    ghost function Rows(): Outgoing
      reads this, acks
    {
      Outgoing(status, acks[..])
    }

    ghost function Beyond(): Outside
      reads hub, blockchain
    {
      Outside(hub.decision, blockchain.chain)
    }

    constructor (deal: Deal, role: Role, hub: Hub, blockchain: Blockchain)
      ensures Valid() && fresh(acks) && Rows() == NewSender(|deal.recipients|)
      ensures this.deal == deal && this.role == role && this.hub == hub && this.blockchain == blockchain
    {
      this.deal, this.role, this.hub, this.blockchain := deal, role, hub, blockchain;
      status := Initiated;
      acks := new Option<bool>[|deal.recipients|](_ => None);
    }

    /** The hub has to agree before the row is marked failed. */
    method FailBatchTransfer() returns (reply: Reply)
      modifies `status, hub
      ensures Completed(reply, Beyond()) == FailBatch(role, old(Beyond()))
      ensures status == StatusAfter(old(status), reply)
    {
      if role.Cosigner? {
        var mismatch := hub.SetTransferStatus(false);
        if mismatch {
          return OtherError;
        }
      }
      status := Failed;
      reply := Moved(Failed);
    }

    method SetHubAcceptStatus() returns (accepted: Option<bool>)
      modifies hub
      ensures accepted == SetHubAccept(role, old(hub.decision))
      ensures hub.decision == HubAfterAccept(role, old(hub.decision))
    {
      match role
      case Single => accepted := Some(true);
      case Cosigner =>
        var mismatch := hub.SetTransferStatus(true);
        accepted := Some(!mismatch);
      case WatchOnly => accepted := hub.decision;
    }

    method BroadcastAndUpdate(net: Network) returns (reply: Reply)
      modifies `status, blockchain
      ensures Completed(reply, Beyond()) == Broadcast(old(Beyond()), net)
      ensures status == StatusAfter(old(status), reply)
    {
      match net
      case Accepts =>
        blockchain.chain := Seen(blockchain.chain);
        status := WaitingConfirmations;
        reply := Moved(WaitingConfirmations);
      case RefusesFee => reply := FeeError;
      case Loses(visible) =>
        if visible {
          blockchain.chain := Seen(blockchain.chain);
        }
        reply := OtherError;
    }

    /** Complete the batch with the ACKs it is handed. */
    method TryComplete(transfers: seq<Option<bool>>, now: int, net: Network) returns (reply: Reply)
      requires Valid()
      modifies `status, hub, blockchain
      ensures Completed(reply, Beyond()) == TryCompleteBatch(deal, role, transfers, now, old(Beyond()), net)
      ensures status == StatusAfter(old(status), reply)
    {
      var nacked, acked := false, true;
      for i := 0 to |transfers|
        invariant nacked <==> AnyNacked(transfers[..i])
        invariant acked <==> AllAcked(transfers[..i])
      {
        assert transfers[..i + 1] == transfers[..i] + [transfers[i]];
        assert AnyNacked(transfers[..i]) || transfers[i] == Some(false) ==> AnyNacked(transfers[..i + 1]) by {
          if AnyNacked(transfers[..i]) {
            var k :| 0 <= k < i && transfers[..i][k] == Some(false);
            assert transfers[..i + 1][k] == Some(false);
          } else if transfers[i] == Some(false) {
            assert transfers[..i + 1][i] == Some(false);
          }
        }
        nacked := nacked || transfers[i] == Some(false);
        acked := acked && transfers[i] == Some(true);
      }
      assert transfers[..|transfers|] == transfers;
      if nacked {
        reply := FailBatchTransfer();
        return;
      }
      if !acked {
        return Unchanged;
      }
      if Expired(deal.expiration, now) {
        reply := FailBatchTransfer();
        return;
      }
      var accepted := SetHubAcceptStatus();
      if accepted.None? {
        return Unchanged;
      }
      if !accepted.value {
        reply := FailBatchTransfer();
        return;
      }
      reply := BroadcastAndUpdate(net);
    }

    /** Poll the proxy for every row without an ACK, then complete with the rows just written. */
    method WaitAcks(slots: seq<Option<bool>>, now: int, a: Answers) returns (reply: Reply)
      requires Valid() && |slots| == |deal.recipients|
      modifies `status, acks, hub, blockchain
      ensures Sent(Rows(), reply, Beyond()) == WaitAck(deal, role, old(Rows()), slots, now, old(Beyond()), a)
    {
      var transfers := acks[..];
      for i := 0 to acks.Length
        modifies acks
        invariant |transfers| == acks.Length
        invariant forall k | 0 <= k < acks.Length ::
          acks[k] == if k < i then PolledRow(deal.recipients[k], old(acks[k]), slots[k]) else old(acks[k])
        invariant transfers == acks[..]
        invariant PollFails(deal, old(Rows()).acks, a) ==> i <= a.proxyFails.value
      {
        if transfers[i].Some? {
          continue;
        }
        if deal.recipients[i].transport.OutOfBand? {
          continue;
        }
        if a.proxyFails == Some(i) {
          assert acks[..] == PartlyPolled(deal, old(Rows()).acks, slots, i);
          return OtherError;
        }
        if slots[i].Some? {
          acks[i] := slots[i];
          transfers := transfers[i := slots[i]];
        }
      }
      assert transfers == Polled(deal, old(Rows()).acks, slots);
      reply := TryComplete(transfers, now, a.network);
      assert acks[..] == transfers;
    }

    method WaitForConfirmations() returns (reply: Reply)
      modifies `status
      ensures status == WaitConfirmations(old(status), blockchain.chain, deal.minConfirmations)
      ensures reply == if status == old(status) then Unchanged else Moved(status)
    {
      if blockchain.chain.None? {
        return Unchanged;
      }
      if blockchain.chain.value < deal.minConfirmations {
        if status.WaitingBroadcast? {
          status := WaitingConfirmations;
          return Moved(WaitingConfirmations);
        }
        return Unchanged;
      }
      reply := if status.Settled? then Unchanged else Moved(Settled);
      status := Settled;
    }

    method RefreshTransfer(slots: seq<Option<bool>>, now: int, a: Answers) returns (reply: Reply)
      requires Valid() && |slots| == |deal.recipients|
      modifies `status, acks, hub, blockchain
      ensures Sent(Rows(), reply, Beyond()) == RefreshOutgoing(deal, role, old(Rows()), slots, now, old(Beyond()), a)
    {
      match status
      case WaitingCounterparty =>
        if !role.Single? && hub.decision == Some(false) {
          reply := FailBatchTransfer();
        } else {
          reply := WaitAcks(slots, now, a);
        }
      case WaitingConfirmations => reply := WaitForConfirmations();
      case _ => reply := Unchanged;
    }

    /** Undo the transaction's writes to the rows. */
    method Rollback(status: TransferStatus, rows: seq<Option<bool>>)
      requires |rows| == acks.Length
      modifies `status, acks
      ensures Rows() == Outgoing(status, rows)
    {
      this.status := status;
      forall i | 0 <= i < acks.Length {
        acks[i] := rows[i];
      }
      assert acks[..] == rows;
    }

    method FailTransfer(slots: seq<Option<bool>>, now: int, a: Answers) returns (reply: Reply)
      requires Valid() && |slots| == |deal.recipients|
      modifies `status, acks, hub, blockchain
      ensures Sent(Rows(), reply, Beyond()) == FailOutgoing(deal, role, old(Rows()), slots, now, old(Beyond()), a)
    {
      if role.WatchOnly? || !status.IsFallible() {
        return Unchanged;
      }
      var before, rows := status, acks[..];
      reply := RefreshTransfer(slots, now, a);
      if reply.FeeError? || reply.Unchanged? {
        // the status did not change after a refresh
        reply := FailBatchTransfer();
      }
      if reply.OtherError? {
        Rollback(before, rows);
      }
    }

    method ProvideOutOfBandAck(i: nat, now: int, net: Network) returns (reply: Reply)
      requires Valid() && i < |deal.recipients|
      modifies `status, acks, hub, blockchain
      ensures Sent(Rows(), reply, Beyond()) == ProvideAck(deal, role, old(Rows()), i, now, old(Beyond()), net)
    {
      if !role.Single? || !status.WaitingCounterparty? || deal.recipients[i].transport.Proxy? {
        return OtherError;
      }
      var before, rows := status, acks[..];
      // record the ACK, and reflect it in the copy loaded before
      if acks[i] != Some(true) {
        acks[i] := Some(true);
      }
      var transfers := rows[i := Some(true)];
      assert acks[..] == transfers;
      reply := TryComplete(transfers, now, net);
      if !(reply.Unchanged? || reply == Moved(WaitingConfirmations)) {
        Rollback(before, rows);
        reply := OtherError;
      }
    }
  }

  class ReceivingWallet {
    const terms: Terms
    var status: TransferStatus
    var slot: Option<bool>  // the proxy's ACK slot, which the sender polls

    ghost function Row(): Incoming
      reads this
    {
      Incoming(status, slot)
    }

    constructor (terms: Terms)
      ensures this.terms == terms && Row() == Incoming(WaitingCounterparty, None)
    {
      this.terms := terms;
      status, slot := WaitingCounterparty, None;
    }

    /** An ACK that is already there cannot be changed; finding the opposite one is only logged. */
    method PostAck(ack: bool)
      modifies `slot
      ensures slot == PostFor(terms, old(slot), ack)
    {
      if terms.transport.Proxy? && slot.None? {
        slot := Some(ack);
      }
    }

    method Accept()
      modifies this
      ensures Row() == AckConsignment(terms, old(Row()))
    {
      PostAck(true);
      status := WaitingBroadcast;
    }

    method ValidateReceived(v: View)
      modifies this
      ensures Row() == Validate(terms, v, old(Row()))
    {
      if !terms.valid {
        PostAck(false);
        status := Failed;
      } else if terms.risky && !v.safe {
        status := WaitingSafeHeight;
      } else {
        Accept();
      }
    }

    method RefreshTransfer(v: View) returns (changed: bool)
      modifies this
      ensures Row() == RefreshIncoming(terms, v, old(Row()))
      ensures changed <==> status != old(status)
    {
      changed := false;
      match status
      case WaitingCounterparty =>
        if terms.transport.Proxy? && v.posted {
          ValidateReceived(v);
          changed := true;
        }
      case WaitingSafeHeight =>
        if !(terms.risky && !v.safe) {
          Accept();
          changed := true;
        }
      case WaitingBroadcast =>
        changed := v.chain.Some?;
        status := WaitConfirmations(status, v.chain, v.minConfirmations);
      case WaitingConfirmations =>
        changed := v.chain.Some? && v.chain.value >= v.minConfirmations;
        status := WaitConfirmations(status, v.chain, v.minConfirmations);
      case _ =>
    }

    method TakeOutOfBand(v: View)
      modifies this
      ensures Row() == TakeConsignment(terms, v, old(Row()))
    {
      if status.WaitingCounterparty? && terms.transport.OutOfBand? && v.posted {
        ValidateReceived(v);
      }
    }

    method FailTransfer(v: View) returns (cannotFail: bool)
      modifies this
      ensures Row() == FailIncoming(terms, v, old(Row()))
      ensures !cannotFail ==> status.Failed?
    {
      if !status.IsFallible() {
        return true;
      }
      if status.WaitingBroadcast? && !Expired(terms.expiration, v.now) {
        return true;
      }
      cannotFail := RefreshTransfer(v);
      if !cannotFail {
        status := Failed;
      }
    }

    /**
     * Whichever operation the wallet runs: a verdict it has posted stays, an ACK is given up only past the
     * expiration, and not at all once the transaction is visible.
     */
    method Operate(act: Safety.Act, v: View)
      requires Safety.IncomingInv(terms, Row(), v.posted, v.safe, v.now)
      modifies this
      ensures Row() == Safety.Acted(act, terms, v, old(Row()))
      ensures Safety.IncomingInv(terms, Row(), v.posted, v.safe, v.now)
      ensures old(slot).Some? ==> slot == old(slot)
      ensures slot == Some(true) && status.Failed? ==> Expired(terms.expiration, v.now)
      ensures Safety.IncomingSafe(terms, old(Row()), v.chain) ==> Safety.IncomingSafe(terms, Row(), v.chain)
    {
      Safety.IncomingKeeps(act, terms, v, Row(), true);
      if Safety.IncomingSafe(terms, Row(), v.chain) {
        Safety.IncomingStaysSafe(act, terms, v, Row(), true);
      }
      match act
      case Refreshing => var _ := RefreshTransfer(v);
      case Failing => var _ := FailTransfer(v);
      case Taking => TakeOutOfBand(v);
    }
  }
}
