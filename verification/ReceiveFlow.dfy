/**
 The receive side of one open channel against the device that writes to it
 (libadb/src/base/slot.rs, libadb/src/base/connection.rs, the credit and
 watermark of libadb/src/base/connection/config.rs).

 WRTEs and OKAYs take time on the wire. The device keeps the one rule of its
 acknowledgement mode: with delayed ack it sends while it has credit, packets
 of at most `maxPacket` bytes; without, it waits for the OKAY of each WRTE.
 */
module ReceiveFlow {
  import opened Prelude
  import opened SendQueues
  import opened Slots

  /**
   `inFlight`: WRTEs sent and not yet received. `returned` and `okays`: credit
   and OKAYs we sent; `credited` and `okayed`: those that reached the device.
   `delivered`: what reads got; `arrived`: what was accepted, in order.
   */
  datatype Flow = Flow(
    slot: Slot,
    advertised: nat,
    maxPacket: nat,
    inFlight: seq<seq<byte>>,
    sent: nat,
    credited: nat,
    okayed: nat,
    written: nat,
    returned: nat,
    okays: nat,
    arrived: seq<byte>,
    taken: nat,
    delivered: seq<byte>)

  datatype Event =
    | Write(payload: seq<byte>)
    | Receive
    | ReceiveDirect(want: nat)
    | Settle(want: nat)
    | Take(want: nat)
    | OkayArrives(credit: nat)

  // ---- steps ----

  function Acked(f: Flow, ack: Option<PendingAck>): Flow {
    if ack.None? then f else f.(returned := f.returned + ack.value.len, okays := f.okays + 1)
  }

  /** A WRTE is dispatched. `None`: it does not fit, and breaks the channel. */
  function Received(f: Flow): Option<Flow>
    requires f.inFlight != [] && Sound(f.slot)
  {
    var payload := f.inFlight[0];
    match ApplyWrite(f.slot, payload)
    case None => None
    case Some((slot, ack)) =>
      Some(Acked(f.(slot := slot, inFlight := f.inFlight[1..], arrived := f.arrived + payload,
                    written := f.written + 1), ack))
  }

  /** A WRTE goes straight from its packet to the reader. */
  function ReceivedDirect(f: Flow): Flow
    requires f.inFlight != []
  {
    var payload := f.inFlight[0];
    var (slot, ack) := Deliver(f.slot, |payload|);
    Acked(f.(slot := slot, inFlight := f.inFlight[1..], arrived := f.arrived + payload, written := f.written + 1,
             taken := f.taken + |payload|, delivered := f.delivered + payload), ack)
  }

  function Settled(f: Flow, want: nat): Flow
    requires Sound(f.slot)
  {
    var (slot, ack) := SettleTake(f.slot, want);
    Acked(f.(slot := slot), ack)
  }

  function TakenFrom(f: Flow, want: nat): Flow
    requires Sound(f.slot)
  {
    var (slot, got) := TakeBuffered(f.slot, want);
    if got.Bytes? then f.(slot := slot, taken := f.taken + |got.data|, delivered := f.delivered + got.data) else f
  }

  /** The device may write: on credit, or when nothing it wrote is unacknowledged. */
  predicate MayWrite(f: Flow) {
    match f.slot.policy.ack
    case Delayed => f.sent < f.advertised + f.credited
    case Classic => f.inFlight == [] && f.written == f.okayed
  }

  predicate Possible(f: Flow, e: Event)
    requires Sound(f.slot)
  {
    match e
    case Write(payload) => MayWrite(f) && |payload| <= f.maxPacket
    case Receive => f.inFlight != []
    case ReceiveDirect(want) => f.inFlight != [] && !HasData(f.slot) && |f.inFlight[0]| <= want
    case Settle(want) => true
    case Take(want) => !TakeAcks(f.slot, want)
    case OkayArrives(credit) => f.okayed < f.okays && f.credited + credit <= f.returned
  }

  /** `None`: the WRTE overflowed the channel. */
  function Next(f: Flow, e: Event): Option<Flow>
    requires Sound(f.slot) && Possible(f, e)
  {
    match e
    case Write(payload) => Some(f.(inFlight := f.inFlight + [payload], sent := f.sent + |payload|))
    case Receive => Received(f)
    case ReceiveDirect(_) => Some(ReceivedDirect(f))
    case Settle(want) => Some(Settled(f, want))
    case Take(want) => Some(TakenFrom(f, want))
    case OkayArrives(credit) => Some(f.(credited := f.credited + credit, okayed := f.okayed + 1))
  }

  // ---- what every step keeps ----

  ghost function Total(packets: seq<seq<byte>>): nat {
    if packets == [] then 0 else |packets[0]| + Total(packets[1..])
  }

  lemma {:induction false} TotalPush(packets: seq<seq<byte>>, payload: seq<byte>)
    ensures Total(packets + [payload]) == Total(packets) + |payload|
  {
    if packets != [] {
      TotalPush(packets[1..], payload);
      assert (packets + [payload])[1..] == packets[1..] + [payload];
    }
  }

  /** An open channel, large enough for its policy: the cap takes the whole window, or the watermark's overrun. */
  ghost predicate Fitting(f: Flow) {
    && f.slot.state == Open && f.slot.remote.Some? && f.slot.policy.watermark > 0
    && f.slot.policy.rxCap <= USIZE_MAX && f.maxPacket > 0
    && (f.slot.policy.ack == Delayed ==> f.advertised + f.maxPacket - 1 <= f.slot.policy.rxCap)
    && (f.slot.policy.ack == Classic ==> f.slot.policy.watermark + f.maxPacket - 1 <= f.slot.policy.rxCap)
  }

  /** The bytes: everything accepted was delivered or is buffered, in order. */
  ghost predicate Bytes(f: Flow) {
    && Sound(f.slot) && f.delivered + f.slot.rxBuf == f.arrived && f.taken == |f.delivered|
    && (forall p <- f.inFlight :: |p| <= f.maxPacket)
  }

  /**
   Delayed ack: every byte received had its credit returned or is unacked; every
   byte of credit returned was delivered or is settled; what is held is unacked.
   */
  ghost predicate DelayedBooks(f: Flow)
    requires Sound(f.slot)
  {
    && |f.arrived| == f.returned + f.slot.unacked
    && f.returned == f.taken + f.slot.settled
    && Held(f.slot) == f.slot.unacked
    && f.credited <= f.returned
    && f.sent == |f.arrived| + Total(f.inFlight)
    && (forall k :: 0 <= k < |f.inFlight| ==> |f.arrived| + Total(f.inFlight[..k]) < f.advertised + f.returned)
  }

  /** Classic: at most one WRTE is unacknowledged, and it is only while the channel holds a watermark's worth. */
  ghost predicate ClassicBooks(f: Flow)
    requires Sound(f.slot)
  {
    && f.okayed <= f.okays <= f.written <= f.okays + 1
    && (f.slot.unacked == 0 <==> f.written == f.okays)
    && (f.slot.unacked > 0 ==> f.slot.policy.watermark <= Held(f.slot))
    && (f.written == f.okays ==> Held(f.slot) < f.slot.policy.watermark)
    && (f.inFlight != [] ==> |f.inFlight| == 1 && f.written == f.okays == f.okayed)
    && Held(f.slot) <= f.slot.policy.watermark - 1 + f.maxPacket
  }

  ghost predicate Inv(f: Flow) {
    && Fitting(f) && Bytes(f)
    && (f.slot.policy.ack == Delayed ==> DelayedBooks(f))
    && (f.slot.policy.ack == Classic ==> ClassicBooks(f))
  }

  lemma WriteKeeps(f: Flow, payload: seq<byte>)
    requires Inv(f) && Possible(f, Write(payload))
    ensures Inv(Next(f, Write(payload)).value)
  {
    TotalPush(f.inFlight, payload);
    var g := Next(f, Write(payload)).value;
    if f.slot.policy.ack == Delayed {
      forall k | 0 <= k < |g.inFlight| ensures |g.arrived| + Total(g.inFlight[..k]) < g.advertised + g.returned {
        if k < |f.inFlight| {
          assert g.inFlight[..k] == f.inFlight[..k];
        } else {
          assert g.inFlight[..k] == f.inFlight;
        }
      }
    }
  }

  /** The next WRTE fits, whichever rule the device follows. */
  lemma NextFits(f: Flow)
    requires Inv(f) && f.inFlight != []
    ensures Fits(f.slot, f.inFlight[0]) && Held(f.slot) + |f.inFlight[0]| <= f.slot.policy.rxCap
  {
    assert f.inFlight[0] in f.inFlight;
    if f.slot.policy.ack == Delayed { assert f.inFlight[..0] == []; }
  }

  /** The rest of the flight moves up behind a WRTE that arrived. */
  lemma FlightMoves(f: Flow, k: nat)
    requires f.inFlight != [] && k < |f.inFlight| - 1
    ensures Total(f.inFlight[..k + 1]) == |f.inFlight[0]| + Total(f.inFlight[1..][..k])
  {
    assert f.inFlight[..k + 1][1..] == f.inFlight[1..][..k];
  }

  lemma ReceiveKeeps(f: Flow)
    requires Inv(f) && f.inFlight != []
    ensures Received(f).Some? && Inv(Received(f).value)
  {
    NextFits(f);
    var payload := f.inFlight[0];
    var g := Received(f).value;
    assert f.delivered + (f.slot.rxBuf + payload) == f.arrived + payload;
    assert forall p <- g.inFlight :: p in f.inFlight;
    if f.slot.policy.ack == Delayed {
      forall k | 0 <= k < |g.inFlight| ensures |g.arrived| + Total(g.inFlight[..k]) < g.advertised + g.returned {
        FlightMoves(f, k);
        assert |f.arrived| + Total(f.inFlight[..k + 1]) < f.advertised + f.returned;
      }
    }
  }

  lemma DirectKeeps(f: Flow, want: nat)
    requires Inv(f) && Possible(f, ReceiveDirect(want))
    ensures Inv(ReceivedDirect(f))
  {
    var payload := f.inFlight[0];
    var g := ReceivedDirect(f);
    assert payload in f.inFlight;
    assert f.slot.rxBuf == [];
    assert f.delivered == f.arrived;
    assert forall p <- g.inFlight :: p in f.inFlight;
    if f.slot.policy.ack == Delayed {
      forall k | 0 <= k < |g.inFlight| ensures |g.arrived| + Total(g.inFlight[..k]) < g.advertised + g.returned {
        FlightMoves(f, k);
        assert |f.arrived| + Total(f.inFlight[..k + 1]) < f.advertised + f.returned;
      }
    }
  }

  lemma SettleKeeps(f: Flow, want: nat)
    requires Inv(f)
    ensures Inv(Settled(f, want))
  {
  }

  lemma TakeKeeps(f: Flow, want: nat)
    requires Inv(f) && Possible(f, Take(want))
    ensures Inv(TakenFrom(f, want))
  {
    var (slot, got) := TakeBuffered(f.slot, want);
    if got.Bytes? {
      assert f.delivered + got.data + slot.rxBuf == f.delivered + (got.data + slot.rxBuf);
    }
  }

  lemma StepKeeps(f: Flow, e: Event)
    requires Inv(f) && Possible(f, e)
    ensures Next(f, e).Some? && Inv(Next(f, e).value)
  {
    match e {
      case Write(payload) => WriteKeeps(f, payload);
      case Receive => ReceiveKeeps(f);
      case ReceiveDirect(want) => DirectKeeps(f, want);
      case Settle(want) => SettleKeeps(f, want);
      case Take(want) => TakeKeeps(f, want);
      case OkayArrives(_) =>
    }
  }

  // ---- runs ----

  /** A channel just opened: nothing has arrived. */
  function Opened(ids: ChannelIds, credit: nat, policy: RxPolicy, advertised: nat, maxPacket: nat): Flow {
    Flow(AcceptedSlot(ids, credit, policy), advertised, maxPacket, [], 0, 0, 0, 0, 0, 0, [], 0, [])
  }

  datatype Outcome = Ran(flow: Flow) | Overflowed | NotARun

  /** Where a list of events leads. */
  ghost function Run(f: Flow, events: seq<Event>): Outcome {
    if events == [] then Ran(f)
    else
      var n := |events| - 1;
      match Run(f, events[..n])
      case Ran(g) =>
        if !Sound(g.slot) || !Possible(g, events[n]) then NotARun
        else if Next(g, events[n]).None? then Overflowed
        else Ran(Next(g, events[n]).value)
      case other => other
  }

  lemma {:induction false} RunKeeps(f: Flow, events: seq<Event>)
    requires Inv(f)
    ensures !Run(f, events).Overflowed?
    ensures Run(f, events).Ran? ==> Inv(Run(f, events).flow)
  {
    hide Inv;
    if events != [] {
      var n := |events| - 1;
      RunKeeps(f, events[..n]);
      if Run(f, events[..n]).Ran? {
        var g := Run(f, events[..n]).flow;
        if Sound(g.slot) && Possible(g, events[n]) { StepKeeps(g, events[n]); }
      }
    }
  }

  /**
   With delayed ack the receive accounts always balance, and a device that
   writes only on credit, in packets it was allowed, never overflows a channel
   whose cap is at least the advertised credit and one byte less than a packet.
   */
  lemma DelayedNeverOverflows(ids: ChannelIds, credit: nat, policy: RxPolicy, advertised: nat, maxPacket: nat,
                              events: seq<Event>)
    requires policy.ack == Delayed && policy.watermark > 0 && policy.rxCap <= USIZE_MAX && maxPacket > 0
    requires advertised + maxPacket - 1 <= policy.rxCap
    ensures var end := Run(Opened(ids, credit, policy, advertised, maxPacket), events);
            && !end.Overflowed?
            && (end.Ran? ==>
                  && end.flow.delivered + end.flow.slot.rxBuf == end.flow.arrived
                  && |end.flow.arrived| == end.flow.returned + end.flow.slot.unacked
                  && end.flow.returned == |end.flow.delivered| + end.flow.slot.settled
                  && |end.flow.slot.rxBuf| - end.flow.slot.settled == end.flow.slot.unacked)
  {
    var start := Opened(ids, credit, policy, advertised, maxPacket);
    RunKeeps(start, events);
    PolicyStays(start, events);
    hide Run;
  }

  lemma {:induction false} RunJoins(f: Flow, a: seq<Event>, b: seq<Event>)
    ensures Run(f, a + b) == match Run(f, a) case Ran(g) => Run(g, b) case other => other
  {
    hide Possible, Next;
    if b == [] {
      assert a + b == a;
    } else {
      var n := |b| - 1;
      RunJoins(f, a, b[..n]);
      assert (a + b)[..|a| + n] == a + b[..n];
    }
  }

  /** A delayed-ack channel that holds all of the `k` bytes the device ever sent. */
  predicate Holding(f: Flow, policy: RxPolicy, advertised: nat, maxPacket: nat, k: nat) {
    && f.slot.policy == policy && f.slot.settled == 0 && |f.slot.rxBuf| == k && f.inFlight == []
    && f.sent == k && f.advertised == advertised && f.maxPacket == maxPacket
  }

  /** One more packet, sent and received. */
  lemma OnePacket(f: Flow, policy: RxPolicy, advertised: nat, maxPacket: nat, k: nat, payload: seq<byte>)
    requires Holding(f, policy, advertised, maxPacket, k) && policy.ack == Delayed && k < advertised
             && |payload| <= maxPacket
    ensures var end := Run(f, [Write(payload), Receive]);
            && (end.Overflowed? || (end.Ran? && Holding(end.flow, policy, advertised, maxPacket, k + |payload|)))
            && (policy.rxCap < USIZE_MAX && policy.rxCap < k + |payload| ==> end.Overflowed?)
  {
    var events := [Write(payload), Receive];
    assert events[..1] == [Write(payload)] && events[..1][..0] == [];
    var f1 := Next(f, Write(payload)).value;
    assert f1.inFlight == [payload];
    assert Run(f, events[..1]) == Ran(f1);
  }

  /** Packets of at most `maxPacket` bytes until `k` are buffered, or the channel overflows. */
  lemma {:induction false} FillUp(f: Flow, policy: RxPolicy, advertised: nat, maxPacket: nat, k: nat)
    returns (events: seq<Event>)
    requires Holding(f, policy, advertised, maxPacket, 0) && policy.ack == Delayed && k < advertised && maxPacket > 0
    ensures var end := Run(f, events);
            end.Overflowed? || (end.Ran? && Holding(end.flow, policy, advertised, maxPacket, k))
  {
    hide Holding;
    if k == 0 {
      events := [];
    } else {
      var n := Min(k, maxPacket);
      var payload: seq<byte> := seq(n, _ => 0);
      var front := FillUp(f, policy, advertised, maxPacket, k - n);
      events := front + [Write(payload), Receive];
      RunJoins(f, front, [Write(payload), Receive]);
      if Run(f, front).Ran? { OnePacket(Run(f, front).flow, policy, advertised, maxPacket, k - n, payload); }
    }
  }

  /** No smaller cap is enough: the device may send a full packet on its last byte of credit. */
  lemma CapIsTight(ids: ChannelIds, credit: nat, policy: RxPolicy, advertised: nat, maxPacket: nat)
    returns (events: seq<Event>)
    requires policy.ack == Delayed && policy.rxCap < USIZE_MAX && advertised > 0 && maxPacket > 0
    requires policy.rxCap < advertised + maxPacket - 1
    ensures Run(Opened(ids, credit, policy, advertised, maxPacket), events).Overflowed?
  {
    var f := Opened(ids, credit, policy, advertised, maxPacket);
    var full: seq<byte> := seq(maxPacket, _ => 0);
    var front := FillUp(f, policy, advertised, maxPacket, advertised - 1);
    events := front + [Write(full), Receive];
    RunJoins(f, front, [Write(full), Receive]);
    if Run(f, front).Ran? { OnePacket(Run(f, front).flow, policy, advertised, maxPacket, advertised - 1, full); }
  }

  /** Some run overflows a channel exactly when its cap is less than the credit and a packet less one. */
  lemma OverflowsExactly(ids: ChannelIds, credit: nat, policy: RxPolicy, advertised: nat, maxPacket: nat)
    requires policy.ack == Delayed && policy.watermark > 0 && policy.rxCap < USIZE_MAX && advertised > 0
             && maxPacket > 0
    ensures (exists events :: Run(Opened(ids, credit, policy, advertised, maxPacket), events).Overflowed?)
            <==> policy.rxCap < advertised + maxPacket - 1
  {
    hide Run, Opened;
    if policy.rxCap < advertised + maxPacket - 1 {
      var events := CapIsTight(ids, credit, policy, advertised, maxPacket);
    } else {
      forall events ensures !Run(Opened(ids, credit, policy, advertised, maxPacket), events).Overflowed? {
        DelayedNeverOverflows(ids, credit, policy, advertised, maxPacket, events);
      }
    }
  }

  /**
   Without delayed ack each WRTE gets one OKAY or is the one still waiting for
   it; none waits once the channel holds less than the watermark; and what is
   held never exceeds the watermark by a whole packet.
   */
  lemma ClassicHoldsBack(ids: ChannelIds, credit: nat, policy: RxPolicy, maxPacket: nat, events: seq<Event>)
    requires policy.ack == Classic && policy.watermark > 0 && policy.rxCap <= USIZE_MAX && maxPacket > 0
    requires policy.watermark + maxPacket - 1 <= policy.rxCap
    ensures var end := Run(Opened(ids, credit, policy, 0, maxPacket), events);
            && !end.Overflowed?
            && (end.Ran? ==>
                  var held := |end.flow.slot.rxBuf| - end.flow.slot.settled;
                  && end.flow.delivered + end.flow.slot.rxBuf == end.flow.arrived
                  && end.flow.okays <= end.flow.written <= end.flow.okays + 1
                  && (held < policy.watermark ==> end.flow.okays == end.flow.written)
                  && held <= policy.watermark - 1 + maxPacket)
  {
    RunKeeps(Opened(ids, credit, policy, 0, maxPacket), events);
    PolicyStays(Opened(ids, credit, policy, 0, maxPacket), events);
  }

  lemma {:induction false} PolicyStays(f: Flow, events: seq<Event>)
    ensures var end := Run(f, events);
            end.Ran? ==>
              end.flow.slot.policy == f.slot.policy && end.flow.maxPacket == f.maxPacket
              && end.flow.advertised == f.advertised
  {
    if events != [] { PolicyStays(f, events[..|events| - 1]); }
  }

  // ---- the window the configuration advertises ----

  const MIN_MAX_PAYLOAD: nat := 1024

  datatype Config = Config(maxPayload: nat, initialAckBytes: nat, maxRxPerChannel: nat)

  /** What the builder methods let through. */
  predicate ValidConfig(c: Config) {
    && MIN_MAX_PAYLOAD <= c.maxPayload <= MAX_PAYLOAD
    && c.initialAckBytes < 0x1_0000_0000 && c.maxRxPerChannel <= USIZE_MAX
  }

  function RxCap(c: Config): nat { if c.maxRxPerChannel < c.maxPayload then c.maxPayload else c.maxRxPerChannel }

  function RxCeiling(c: Config): int { RxCap(c) - c.maxPayload + 1 }

  function RxWatermark(c: Config): int {
    Min(if c.initialAckBytes > c.maxPayload then c.initialAckBytes else c.maxPayload, RxCeiling(c))
  }

  function AdvertisedAckBytes(c: Config): int {
    if c.initialAckBytes > RxCeiling(c) then RxCeiling(c) else c.initialAckBytes
  }

  function PolicyOf(c: Config, ack: AckMode): RxPolicy
    requires ValidConfig(c)
  {
    RxPolicy(ack, RxCap(c), RxWatermark(c))
  }

  /** The smallest buffers a configuration can ask for: room for one packet, and OKAYs one byte at a time. */
  const SMALLEST := Config(MIN_MAX_PAYLOAD, 1, MIN_MAX_PAYLOAD)

  /** Every configuration fits: whatever the limits, a channel never overflows under a device that keeps its rule. */
  lemma EveryConfigFits(c: Config, ack: AckMode, ids: ChannelIds, credit: nat, events: seq<Event>)
    requires ValidConfig(c)
    ensures 0 <= AdvertisedAckBytes(c) < 0x1_0000_0000
    ensures !Run(Opened(ids, credit, PolicyOf(c, ack), AdvertisedAckBytes(c), c.maxPayload), events).Overflowed?
  {
    RunKeeps(Opened(ids, credit, PolicyOf(c, ack), AdvertisedAckBytes(c), c.maxPayload), events);
  }

  // ---- the fast path ----

  /** The OKAYs a WRTE and the read that takes it send, as (ids, payload) on the wire. */
  function OnWire(mode: AckMode, acks: seq<Option<PendingAck>>): seq<(ChannelIds, seq<byte>)> {
    if acks == [] then []
    else
      (if acks[0].Some? then [(acks[0].value.ids, OkayPayload(mode, acks[0].value))] else [])
      + OnWire(mode, acks[1..])
  }

  /** Dispatch, settle, take: the way of every WRTE but one that a read is waiting for. */
  function Slowly(slot: Slot, payload: seq<byte>, want: nat): Option<(Slot, Taken, seq<Option<PendingAck>>)>
    requires Sound(slot)
  {
    match ApplyWrite(slot, payload)
    case None => None
    case Some((pushed, atOnce)) =>
      var (settled, onRead) := SettleTake(pushed, want);
      var (after, got) := TakeBuffered(settled, want);
      Some((after, got, [atOnce, onRead]))
  }

  /**
   The fast path refines the slow one: with nothing buffered, a WRTE that fits
   the reader's buffer and the cap leaves the same slot and the same OKAYs on the
   wire. The bytes are the same unless there are none: an empty WRTE ends a
   waiting read on the fast path, and leaves it waiting on the slow one.
   */
  lemma FastPathSame(f: Flow, want: nat)
    requires Inv(f) && f.inFlight != [] && !HasData(f.slot) && |f.inFlight[0]| <= want
    ensures var payload := f.inFlight[0];
            var (slot, ack) := Deliver(f.slot, |payload|);
            var slow := Slowly(f.slot, payload, want);
            && slow.Some? && slow.value.0 == slot
            && slow.value.1 == (if payload == [] then Nothing else Taken.Bytes(payload))
            && OnWire(f.slot.policy.ack, slow.value.2) == OnWire(f.slot.policy.ack, [ack])
            && |OnWire(f.slot.policy.ack, [ack])| == (if f.slot.policy.ack == Delayed && payload == [] then 0 else 1)
  {
    NextFits(f);
    var payload := f.inFlight[0];
    assert f.slot.rxBuf == [] && f.slot.settled == 0 && f.slot.unacked == 0;
    hide Inv, Slowly, OnWire;
    if f.slot.policy.ack == Delayed {
      SlowlyDelayed(f.slot, payload, want);
    } else {
      SlowlyClassic(f.slot, payload, want);
    }
  }

  lemma OneOnWire(mode: AckMode, a: PendingAck, b: PendingAck)
    requires a.ids == b.ids && OkayPayload(mode, a) == OkayPayload(mode, b)
    ensures OnWire(mode, [Some(a), None]) == OnWire(mode, [None, Some(a)]) == OnWire(mode, [Some(b)])
    ensures |OnWire(mode, [Some(b)])| == 1
  {
    hide OkayPayload;
    assert [Some(a), None][1..] == [None] && [None, Some(a)][1..] == [Some(a)] && [Some(a)][1..] == []
           && [Some(b)][1..] == [];
    var none: seq<Option<PendingAck>> := [None];
    assert none[1..] == [];
  }

  lemma NoneOnWire(mode: AckMode)
    ensures OnWire(mode, [None, None]) == OnWire(mode, [None]) == []
  {
    var one: seq<Option<PendingAck>>, two: seq<Option<PendingAck>> := [None], [None, None];
    assert two[1..] == one && one[1..] == [];
  }

  /** An open channel with nothing buffered and nothing owed. */
  predicate Fresh(slot: Slot) {
    slot.rxBuf == [] && slot.settled == 0 && slot.unacked == 0 && slot.remote.Some? && slot.state == Open
  }

  lemma SlowlyDelayed(slot: Slot, payload: seq<byte>, want: nat)
    requires Fresh(slot) && slot.policy.ack == Delayed && |payload| <= want && Fits(slot, payload)
             && |payload| <= USIZE_MAX
    ensures var (after, ack) := Deliver(slot, |payload|);
            var slow := Slowly(slot, payload, want);
            && slow.Some? && slow.value.0 == after
            && slow.value.1 == (if payload == [] then Nothing else Taken.Bytes(payload))
            && OnWire(Delayed, slow.value.2) == OnWire(Delayed, [ack])
            && |OnWire(Delayed, [ack])| == (if payload == [] then 0 else 1)
  {
    hide OnWire, OkayPayload;
    assert slot.rxBuf + payload == payload;
    var ack := PendingAck(ChannelIds(slot.local, slot.remote.value), |payload|);
    OneOnWire(Delayed, ack, ack);
    NoneOnWire(Delayed);
  }

  lemma SlowlyClassic(slot: Slot, payload: seq<byte>, want: nat)
    requires Fresh(slot) && slot.policy.ack == Classic && slot.policy.watermark > 0
    requires |payload| <= want && Fits(slot, payload) && |payload| <= USIZE_MAX
    ensures var (after, ack) := Deliver(slot, |payload|);
            var slow := Slowly(slot, payload, want);
            && slow.Some? && slow.value.0 == after
            && slow.value.1 == (if payload == [] then Nothing else Taken.Bytes(payload))
            && OnWire(Classic, slow.value.2) == OnWire(Classic, [ack]) && |OnWire(Classic, [ack])| == 1
  {
    hide OnWire;
    assert slot.rxBuf + payload == payload;
    var ids := ChannelIds(slot.local, slot.remote.value);
    OneOnWire(Classic, PendingAck(ids, |payload|), PendingAck(ids, 0));
  }
}
