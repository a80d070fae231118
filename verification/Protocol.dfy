/** The transfer protocol of a non-donation send: what one refresh or fail does, for each party. */
module Protocol {

  import opened Common
  import opened Assignments

  // ---------------------------------------------------------------- parties and what is fixed

  datatype Role = Single | Cosigner | WatchOnly

  datatype Transport = Proxy | OutOfBand

  /** What is fixed about one recipient: the verdict on its consignment and its invoice's terms. */
  datatype Terms = Terms(transport: Transport, valid: bool, risky: bool, expiration: Option<int>)

  /** A batch: its recipients and the wallets that keep its outgoing rows. */
  datatype Deal = Deal(recipients: seq<Terms>, roles: seq<Role>, expiration: Option<int>, minConfirmations: nat)

  /** Past its expiration; without one it never expires. */
  predicate Expired(expiration: Option<int>, now: int)
  {
    expiration.Some? && expiration.value < now
  }

  /** A write-once register: the first value stays. */
  function Post(register: Option<bool>, value: bool): Option<bool>
  {
    if register.None? then Some(value) else register
  }

  /** Confirmations of the transaction, none while the network has not seen it. */
  type Chain = Option<nat>

  function Seen(chain: Chain): Chain
  {
    if chain.None? then Some(0) else chain
  }

  function WaitConfirmations(status: TransferStatus, chain: Chain, minimum: nat): TransferStatus
  {
    if chain.None? then status
    else if chain.value < minimum then (if status.WaitingBroadcast? then WaitingConfirmations else status)
    else Settled
  }

  // ---------------------------------------------------------------- a recipient

  /** A recipient's status and the ACK slot it shares with the sender through the proxy. */
  datatype Incoming = Incoming(status: TransferStatus, slot: Option<bool>)

  /** What a recipient can observe. */
  datatype View = View(posted: bool, safe: bool, chain: Chain, minConfirmations: nat, now: int)

  function PostFor(t: Terms, slot: Option<bool>, ack: bool): Option<bool>
  {
    if t.transport.Proxy? then Post(slot, ack) else slot
  }

  function AckConsignment(t: Terms, r: Incoming): Incoming
  {
    Incoming(WaitingBroadcast, PostFor(t, r.slot, true))
  }

  /** An invalid consignment is refused; a valid one waits for its history to be safe, or is ACKed. */
  function Validate(t: Terms, v: View, r: Incoming): Incoming
  {
    if !t.valid then Incoming(Failed, PostFor(t, r.slot, false))
    else if t.risky && !v.safe then r.(status := WaitingSafeHeight)
    else AckConsignment(t, r)
  }

  function RefreshIncoming(t: Terms, v: View, r: Incoming): Incoming
  {
    match r.status
    case WaitingCounterparty => if t.transport.Proxy? && v.posted then Validate(t, v, r) else r
    case WaitingSafeHeight => if t.risky && !v.safe then r else AckConsignment(t, r)
    case WaitingBroadcast => r.(status := WaitConfirmations(r.status, v.chain, v.minConfirmations))
    case WaitingConfirmations => r.(status := WaitConfirmations(r.status, v.chain, v.minConfirmations))
    case _ => r
  }

  /** A consignment handed over by its recipient's user. */
  function TakeConsignment(t: Terms, v: View, r: Incoming): Incoming
  {
    if r.status.WaitingCounterparty? && t.transport.OutOfBand? && v.posted then Validate(t, v, r) else r
  }

  /** Failing is refused outright, gives way to a refresh that changes something, or fails. */
  function FailIncoming(t: Terms, v: View, r: Incoming): Incoming
  {
    if !r.status.IsFallible() then r
    else if r.status.WaitingBroadcast? && !Expired(t.expiration, v.now) then r
    else
      var refreshed := RefreshIncoming(t, v, r);
      if refreshed.status != r.status then refreshed else refreshed.(status := Failed)
  }

  // ---------------------------------------------------------------- a wallet that sends

  /** The batch row and its transfer rows' ACKs. */
  datatype Outgoing = Outgoing(status: TransferStatus, acks: seq<Option<bool>>)

  /** What outlives a rolled back transaction: the hub's decision and the network. */
  datatype Outside = Outside(hub: Option<bool>, chain: Chain)

  /** How the network answers a broadcast; after a lost answer it may or may not have the transaction. */
  datatype Network = Accepts | RefusesFee | Loses(visible: bool)

  /** The proxy may fail for a row, the network answers a broadcast. */
  datatype Answers = Answers(proxyFails: Option<nat>, network: Network)

  const ALL_WELL := Answers(None, Accepts)

  /** The result of completing a batch: nothing to do, a new status, or an error. */
  datatype Reply = Unchanged | Moved(status: TransferStatus) | FeeError | OtherError

  datatype Completed = Completed(reply: Reply, outside: Outside)

  /** Mark the batch failed, after the hub has agreed to it. */
  function FailBatch(role: Role, o: Outside): Completed
  {
    if !role.Cosigner? then Completed(Moved(Failed), o)
    else if o.hub == Some(true) then Completed(OtherError, o)
    else Completed(Moved(Failed), o.(hub := Some(false)))
  }

  /** The hub's decision, asked for by a cosigner, only followed by a watch-only user. */
  function SetHubAccept(role: Role, hub: Option<bool>): Option<bool>
  {
    match role
    case Single => Some(true)
    case Cosigner => Post(hub, true)
    case WatchOnly => hub
  }

  function HubAfterAccept(role: Role, hub: Option<bool>): Option<bool>
  {
    if role.Cosigner? then Post(hub, true) else hub
  }

  function Broadcast(o: Outside, net: Network): Completed
  {
    match net
    case Accepts => Completed(Moved(WaitingConfirmations), o.(chain := Seen(o.chain)))
    case RefusesFee => Completed(FeeError, o)
    case Loses(visible) => Completed(OtherError, if visible then o.(chain := Seen(o.chain)) else o)
  }

  predicate AllAcked(acks: seq<Option<bool>>)
  {
    forall i | 0 <= i < |acks| :: acks[i] == Some(true)
  }

  predicate AnyNacked(acks: seq<Option<bool>>)
  {
    exists i | 0 <= i < |acks| :: acks[i] == Some(false)
  }

  function TryCompleteBatch(d: Deal, role: Role, acks: seq<Option<bool>>, now: int, o: Outside, net: Network): Completed
  {
    if AnyNacked(acks) then FailBatch(role, o)
    else if !AllAcked(acks) then Completed(Unchanged, o)
    else if Expired(d.expiration, now) then FailBatch(role, o)
    else
      var accepted := o.(hub := HubAfterAccept(role, o.hub));
      match SetHubAccept(role, o.hub)
      case None => Completed(Unchanged, accepted)
      case Some(false) => FailBatch(role, accepted)
      case Some(true) => Broadcast(accepted, net)
  }

  /** A row keeps a recorded ACK, is left alone out of band, and otherwise takes what the proxy has. */
  function PolledRow(t: Terms, ack: Option<bool>, slot: Option<bool>): Option<bool>
  {
    if ack.Some? || t.transport.OutOfBand? then ack else slot
  }

  function Polled(d: Deal, acks: seq<Option<bool>>, slots: seq<Option<bool>>): seq<Option<bool>>
    requires |acks| == |slots| == |d.recipients|
  {
    seq(|acks|, i requires 0 <= i < |acks| => PolledRow(d.recipients[i], acks[i], slots[i]))
  }

  /** The polling loop reaches a row that it has to ask the proxy about, and the proxy fails. */
  predicate PollFails(d: Deal, acks: seq<Option<bool>>, a: Answers)
    requires |acks| == |d.recipients|
  {
    && a.proxyFails.Some? && a.proxyFails.value < |acks|
    && acks[a.proxyFails.value].None? && d.recipients[a.proxyFails.value].transport.Proxy?
  }

  /** Only the first n rows have been polled. */
  function PartlyPolled(d: Deal, acks: seq<Option<bool>>, slots: seq<Option<bool>>, n: nat): seq<Option<bool>>
    requires |acks| == |slots| == |d.recipients|
  {
    seq(|acks|, i requires 0 <= i < |acks| => if i < n then PolledRow(d.recipients[i], acks[i], slots[i]) else acks[i])
  }

  /** The rows after an operation, and what it left behind outside them. */
  datatype Sent = Sent(rows: Outgoing, reply: Reply, outside: Outside)

  function StatusAfter(status: TransferStatus, reply: Reply): TransferStatus
  {
    if reply.Moved? then reply.status else status
  }

  /** An error of the proxy leaves the rows polled before it written. */
  function WaitAck(d: Deal, role: Role, s: Outgoing, slots: seq<Option<bool>>, now: int, o: Outside, a: Answers): Sent
    requires |s.acks| == |slots| == |d.recipients|
  {
    if PollFails(d, s.acks, a) then
      Sent(s.(acks := PartlyPolled(d, s.acks, slots, a.proxyFails.value)), OtherError, o)
    else
      var acks := Polled(d, s.acks, slots);
      var c := TryCompleteBatch(d, role, acks, now, o, a.network);
      Sent(Outgoing(StatusAfter(s.status, c.reply), acks), c.reply, c.outside)
  }

  function RefreshOutgoing(d: Deal, role: Role, s: Outgoing, slots: seq<Option<bool>>, now: int, o: Outside, a: Answers): Sent
    requires |s.acks| == |slots| == |d.recipients|
  {
    match s.status
    case WaitingCounterparty =>
      if !role.Single? && o.hub == Some(false) then
        var c := FailBatch(role, o);
        Sent(s.(status := StatusAfter(s.status, c.reply)), c.reply, c.outside)
      else WaitAck(d, role, s, slots, now, o, a)
    case WaitingConfirmations =>
      var status := WaitConfirmations(s.status, o.chain, d.minConfirmations);
      Sent(s.(status := status), if status == s.status then Unchanged else Moved(status), o)
    case _ => Sent(s, Unchanged, o)
  }

  /** A fee error counts as an unchanged transfer; any other error aborts the operation. */
  function FailOutgoing(d: Deal, role: Role, s: Outgoing, slots: seq<Option<bool>>, now: int, o: Outside, a: Answers): Sent
    requires |s.acks| == |slots| == |d.recipients|
  {
    if role.WatchOnly? || !s.status.IsFallible() then Sent(s, Unchanged, o)
    else
      var refreshed := RefreshOutgoing(d, role, s, slots, now, o, a);
      if refreshed.reply.Moved? then refreshed
      else if refreshed.reply.OtherError? then Sent(s, OtherError, refreshed.outside)
      else
        var c := FailBatch(role, refreshed.outside);
        if c.reply.Moved? then Sent(refreshed.rows.(status := c.reply.status), c.reply, c.outside)
        else Sent(s, c.reply, c.outside)
  }

  /** An ACK given by the sender's user; anything but a broadcast or a wait undoes the operation. */
  function ProvideAck(d: Deal, role: Role, s: Outgoing, i: nat, now: int, o: Outside, net: Network): Sent
    requires i < |s.acks| == |d.recipients|
  {
    if !role.Single? || !s.status.WaitingCounterparty? || d.recipients[i].transport.Proxy? then Sent(s, OtherError, o)
    else
      var acks := s.acks[i := Some(true)];
      var c := TryCompleteBatch(d, role, acks, now, o, net);
      if c.reply.Unchanged? || c.reply == Moved(WaitingConfirmations) then
        Sent(Outgoing(StatusAfter(s.status, c.reply), acks), c.reply, c.outside)
      else Sent(s, OtherError, c.outside)
  }

  // ---------------------------------------------------------------- the world

  datatype World = World(
    now: int, senders: seq<Outgoing>, receivers: seq<TransferStatus>,
    slots: seq<Option<bool>>, safe: seq<bool>, posted: bool, outside: Outside)

  ghost predicate Shaped(d: Deal, w: World)
  {
    && |w.receivers| == |w.slots| == |w.safe| == |d.recipients|
    && |w.senders| == |d.roles|
    && forall j | 0 <= j < |w.senders| :: |w.senders[j].acks| == |d.recipients|
  }

  function NewSender(n: nat): Outgoing
  {
    Outgoing(Initiated, seq(n, _ => None))
  }

  function NewWorld(d: Deal, now: int): World
  {
    var n := |d.recipients|;
    World(now, seq(|d.roles|, _ => NewSender(n)), seq(n, _ => WaitingCounterparty), seq(n, _ => None),
          seq(n, _ => false), false, Outside(None, None))
  }

  function ViewOf(d: Deal, w: World, i: nat): View
    requires i < |w.safe|
  {
    View(w.posted, w.safe[i], w.outside.chain, d.minConfirmations, w.now)
  }

  /**
   * A step: time passes, or one wallet acts. A wallet's transaction may roll back (`commits` false): its
   * rows are then as before, while the hub, the proxy and the network keep what they were told.
   */
  datatype Event =
    | Tick(now: int)
    | Confirm
    | BecomeSafe(recipient: nat)
    | SendEnd(sender: nat, commits: bool)
    | RefreshSend(sender: nat, answers: Answers, commits: bool)
    | FailSend(sender: nat, answers: Answers, commits: bool)
    | GiveAck(sender: nat, recipient: nat, net: Network, commits: bool)
    | RefreshReceive(recipient: nat, commits: bool)
    | FailReceive(recipient: nat, commits: bool)
    | HandOver(recipient: nat, commits: bool)

  function WithSent(w: World, j: nat, sent: Sent, commits: bool): World
    requires j < |w.senders|
  {
    w.(senders := if commits then w.senders[j := sent.rows] else w.senders, outside := sent.outside)
  }

  function WithIncoming(w: World, i: nat, r: Incoming, commits: bool): World
    requires i < |w.receivers| == |w.slots|
  {
    w.(receivers := if commits then w.receivers[i := r.status] else w.receivers, slots := w.slots[i := r.slot])
  }

  function IncomingOf(w: World, i: nat): Incoming
    requires i < |w.receivers| == |w.slots|
  {
    Incoming(w.receivers[i], w.slots[i])
  }

  /** Events that name no such party, or go back in time, change nothing. */
  function Step(d: Deal, w: World, e: Event): World
    requires Shaped(d, w)
  {
    match e
    case Tick(now) => if w.now <= now then w.(now := now) else w
    case Confirm =>
      if w.outside.chain.None? then w else w.(outside := w.outside.(chain := Some(w.outside.chain.value + 1)))
    case BecomeSafe(i) => if i < |w.safe| then w.(safe := w.safe[i := true]) else w
    case SendEnd(j, commits) =>
      if j < |w.senders| && w.senders[j].status.Initiated? then
        WithSent(w.(posted := true), j,
                 Sent(w.senders[j].(status := WaitingCounterparty), Unchanged, w.outside), commits)
      else w
    case RefreshSend(j, a, commits) =>
      if j < |w.senders| then
        WithSent(w, j, RefreshOutgoing(d, d.roles[j], w.senders[j], w.slots, w.now, w.outside, a), commits)
      else w
    case FailSend(j, a, commits) =>
      if j < |w.senders| then
        WithSent(w, j, FailOutgoing(d, d.roles[j], w.senders[j], w.slots, w.now, w.outside, a), commits)
      else w
    case GiveAck(j, i, net, commits) =>
      if j < |w.senders| && i < |d.recipients| then
        WithSent(w, j, ProvideAck(d, d.roles[j], w.senders[j], i, w.now, w.outside, net), commits)
      else w
    case RefreshReceive(i, commits) =>
      if i < |w.receivers| then
        WithIncoming(w, i, RefreshIncoming(d.recipients[i], ViewOf(d, w, i), IncomingOf(w, i)), commits)
      else w
    case FailReceive(i, commits) =>
      if i < |w.receivers| then
        WithIncoming(w, i, FailIncoming(d.recipients[i], ViewOf(d, w, i), IncomingOf(w, i)), commits)
      else w
    case HandOver(i, commits) =>
      if i < |w.receivers| then
        WithIncoming(w, i, TakeConsignment(d.recipients[i], ViewOf(d, w, i), IncomingOf(w, i)), commits)
      else w
  }

  lemma StepShaped(d: Deal, w: World, e: Event)
    requires Shaped(d, w)
    ensures Shaped(d, Step(d, w, e))
  {
  }

  ghost function After(d: Deal, w: World, events: seq<Event>): (r: World)
    requires Shaped(d, w)
    ensures Shaped(d, r)
    decreases |events|
  {
    if events == [] then w
    else
      StepShaped(d, w, events[0]);
      After(d, Step(d, w, events[0]), events[1..])
  }

  lemma {:induction false} RunsInTurn(d: Deal, w: World, a: seq<Event>, b: seq<Event>)
    requires Shaped(d, w)
    ensures After(d, w, a + b) == After(d, After(d, w, a), b)
    decreases |a|
  {
    if a == [] {
      assert a + b == b;
    } else {
      StepShaped(d, w, a[0]);
      RunsInTurn(d, Step(d, w, a[0]), a[1..], b);
      assert (a + b)[1..] == a[1..] + b;
    }
  }

  lemma Twice(d: Deal, w: World, e: Event, f: Event)
    requires Shaped(d, w)
    ensures Shaped(d, Step(d, w, e)) && After(d, w, [e]) == Step(d, w, e)
    ensures After(d, w, [e, f]) == Step(d, Step(d, w, e), f)
  {
    StepShaped(d, w, e);
    StepShaped(d, Step(d, w, e), f);
    assert [e][1..] == [] && [f][1..] == [];
    assert After(d, Step(d, w, e), [f]) == Step(d, Step(d, w, e), f);
    assert [e, f][0] == e && [e, f][1..] == [f];
  }
}
