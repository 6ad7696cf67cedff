/**
 One channel's slot (libadb/src/base/slot.rs): its send credit, its receive
 buffer and the accounting of what the device has been acknowledged.

 The operations are functions on the value `Slot`; the class `ChannelSlot`
 updates its fields in place and is proved against them.
 */
module Slots {
  import opened Prelude
  import opened SendQueues

  datatype AckMode = Classic | Delayed

  datatype RxPolicy = RxPolicy(ack: AckMode, rxCap: nat, watermark: nat)

  datatype ChannelState = Opening | Open | Closed

  datatype Fault = RxOverflow | ShortReadyPayload

  /** How a call on a closed channel fails. */
  datatype ChannelError = ChannelClosed | Faulted(fault: Fault)

  datatype ChannelIds = ChannelIds(local: nat, remote: nat)

  datatype PendingAck = PendingAck(ids: ChannelIds, len: nat)

  datatype Slot = Slot(
    local: nat,
    remote: Option<nat>,
    state: ChannelState,
    policy: RxPolicy,
    rxBuf: seq<byte>,
    wrteAcked: bool,
    sendBudget: int,
    unacked: nat,
    settled: nat,
    queue: Queue,
    failed: Option<Fault>)

  /** What no operation breaks: never more bytes settled than are buffered. */
  predicate Sound(s: Slot) {
    s.settled <= |s.rxBuf|
  }

  function OpeningSlot(local: nat, policy: RxPolicy): (s: Slot)
    ensures Sound(s)
  {
    Slot(local, None, Opening, policy, [], true, 0, 0, 0, EMPTY, None)
  }

  function AcceptedSlot(ids: ChannelIds, credit: nat, policy: RxPolicy): (s: Slot)
    ensures Sound(s)
  {
    var s := OpeningSlot(ids.local, policy).(remote := Some(ids.remote), state := Open);
    if policy.ack == Delayed then s.(sendBudget := credit) else s
  }

  function Ids(s: Slot): Option<ChannelIds> {
    match s.remote
    case None => None
    case Some(remote) => Some(ChannelIds(s.local, remote))
  }

  predicate IsClosed(s: Slot) { s.state == Closed }

  predicate IsFailed(s: Slot) { s.failed.Some? }

  function ClosedError(s: Slot): ChannelError {
    match s.failed
    case None => ChannelClosed
    case Some(fault) => Faulted(fault)
  }

  // ---- the device's READY ----

  /** The credit a READY carries with delayed ack; extra bytes are ignored. */
  function ReadyCredit(payload: seq<byte>): (r: Option<nat>)
    ensures r.Some? <==> |payload| >= 4
    ensures r.Some? ==> r.value < 0x1_0000_0000
  {
    if |payload| >= 4 then Some(U32Le(payload[..4])) else None
  }

  /** The credit read is the credit the device wrote, whatever follows it. */
  lemma ReadyCreditInverts(credit: nat, more: seq<byte>)
    requires credit < 0x1_0000_0000
    ensures ReadyCredit(U32ToLe(credit) + more) == Some(credit)
  {
    assert (U32ToLe(credit) + more)[..4] == U32ToLe(credit);
  }

  /** The READY that answers our OPEN. `None`: it carried no credit. */
  function AcceptOpenReady(s: Slot, remote: nat, payload: seq<byte>): Option<Slot> {
    var answered := s.(remote := Some(remote), state := Open);
    match s.policy.ack
    case Classic => Some(answered)
    case Delayed =>
      match ReadyCredit(payload)
      case None => None
      case Some(credit) => Some(answered.(sendBudget := credit))
  }

  /** Any later READY: credit, or the go-ahead for the next WRTE. */
  function ApplyReady(s: Slot, payload: seq<byte>): Option<Slot> {
    match s.policy.ack
    case Classic => Some(s.(wrteAcked := true))
    case Delayed =>
      match ReadyCredit(payload)
      case None => None
      case Some(credit) => Some(s.(sendBudget := s.sendBudget + credit))
  }

  // ---- receiving ----

  /** Unread bytes, those a read has already acknowledged left out. */
  function Held(s: Slot): nat
    requires Sound(s)
  {
    |s.rxBuf| - s.settled
  }

  predicate Fits(s: Slot, payload: seq<byte>)
    requires Sound(s)
  {
    SaturatingAdd(Held(s), |payload|) <= s.policy.rxCap
  }

  /** The acknowledgement half of a received WRTE: `Some` goes out at once. */
  function AckOnArrival(s: Slot, payload: seq<byte>): Option<PendingAck>
    requires Sound(s)
  {
    if s.policy.ack == Classic && Held(s) < s.policy.watermark && s.remote.Some? then
      Some(PendingAck(ChannelIds(s.local, s.remote.value), |payload|))
    else None
  }

  /** A WRTE. `None`: it does not fit, and nothing of it is kept. */
  function ApplyWrite(s: Slot, payload: seq<byte>): (r: Option<(Slot, Option<PendingAck>)>)
    requires Sound(s)
    ensures r.Some? <==> Fits(s, payload)
    ensures r.Some? ==> Sound(r.value.0) && Held(r.value.0) == Held(s) + |payload|
  {
    if !Fits(s, payload) then None
    else
      var pushed := s.(rxBuf := s.rxBuf + payload, unacked := SaturatingAdd(s.unacked, |payload|));
      match AckOnArrival(pushed, payload)
      case None => Some((pushed, None))
      case Some(ack) => Some((pushed.(unacked := 0), Some(ack)))
  }

  /**
   A WRTE is accepted exactly when it fits, and then buffered whole. Without delayed ack it is acknowledged at
   once, with everything before it, exactly when the channel then holds less than
   the watermark; otherwise its bytes join the unacknowledged ones.
   */
  lemma WriteIsAccounted(s: Slot, payload: seq<byte>)
    requires Sound(s) && s.remote.Some? && s.unacked + |payload| <= USIZE_MAX
    ensures ApplyWrite(s, payload).Some? <==> SaturatingAdd(Held(s), |payload|) <= s.policy.rxCap
    ensures ApplyWrite(s, payload).Some? ==>
            var (after, ack) := ApplyWrite(s, payload).value;
            && after == s.(rxBuf := s.rxBuf + payload, unacked := if ack.Some? then 0 else s.unacked + |payload|)
            && ack == if s.policy.ack == Classic && Held(after) < s.policy.watermark
                      then Some(PendingAck(ChannelIds(s.local, s.remote.value), |payload|)) else None
  {
  }

  /** The acknowledgement of a WRTE handed to the reader straight from its packet. */
  function Deliver(s: Slot, taken: nat): (Slot, Option<PendingAck>) {
    match s.policy.ack
    case Delayed =>
      (s, match Ids(s)
          case None => None
          case Some(ids) => if taken > 0 then Some(PendingAck(ids, taken)) else None)
    case Classic =>
      if |s.rxBuf| >= s.policy.watermark then (s, None)
      else
        match Ids(s)
        case None => (s, None)
        case Some(ids) => (s.(unacked := 0), Some(PendingAck(ids, s.unacked)))
  }

  function AckLen(s: Slot, n: nat, remaining: nat): (r: Option<nat>)
    ensures r.Some? ==> 0 < r.value <= s.unacked
  {
    if s.unacked == 0 then None
    else
      match s.policy.ack
      case Delayed => var len := Min(n, s.unacked); if len > 0 then Some(len) else None
      case Classic => if remaining < s.policy.watermark then Some(s.unacked) else None
  }

  /** What an OKAY carries on the wire: the credit, cut to 32 bits, or nothing. */
  function OkayPayload(mode: AckMode, ack: PendingAck): seq<byte> {
    match mode
    case Delayed => U32ToLe(ack.len % 0x1_0000_0000)
    case Classic => []
  }

  predicate HasData(s: Slot) {
    s.remote.Some? && s.rxBuf != []
  }

  /** Acknowledge the bytes a read of `want` bytes is about to take. */
  function SettleTake(s: Slot, want: nat): (r: (Slot, Option<PendingAck>))
    requires Sound(s)
    ensures Sound(r.0)
  {
    if s.remote.None? || s.settled != 0 then (s, None)
    else
      var n := Min(want, |s.rxBuf|);
      match AckLen(s, n, |s.rxBuf| - n)
      case None => (s, None)
      case Some(len) =>
        (s.(unacked := s.unacked - len, settled := n),
         Some(PendingAck(ChannelIds(s.local, s.remote.value), len)))
  }

  predicate TakeAcks(s: Slot, want: nat) {
    && HasData(s) && s.settled == 0
    && var n := Min(want, |s.rxBuf|);
       AckLen(s, n, |s.rxBuf| - n).Some?
  }

  datatype Taken = Bytes(data: seq<byte>) | Nothing | Failed(error: ChannelError)

  /** How many bytes a read of `want` bytes takes when something is buffered. */
  function TakeCount(s: Slot, want: nat): nat {
    Min(want, if s.settled == 0 then |s.rxBuf| else s.settled)
  }

  /** Take buffered bytes, stopping at those already acknowledged. */
  function TakeBuffered(s: Slot, want: nat): (r: (Slot, Taken))
    requires Sound(s)
    ensures Sound(r.0)
    ensures r.1.Bytes? ==> r.1.data + r.0.rxBuf == s.rxBuf
    ensures !r.1.Bytes? ==> r.0 == s
  {
    if !HasData(s) then
      (s, if IsClosed(s) then Failed(ClosedError(s)) else Nothing)
    else
      var n := TakeCount(s, want);
      (s.(rxBuf := s.rxBuf[n..], settled := s.settled - Min(n, s.settled)), Bytes(s.rxBuf[..n]))
  }

  /**
   A read of an open channel: settle, then take. It gets as many bytes as it wants
   and there are. With delayed ack and balanced books it returns the credit of
   exactly those; without, it acknowledges everything exactly when it leaves less
   than the watermark.
   */
  lemma ReadAcknowledges(s: Slot, want: nat)
    requires Sound(s) && HasData(s) && s.settled == 0
    ensures var n := Min(want, |s.rxBuf|);
            var (settled, ack) := SettleTake(s, want);
            var (after, got) := TakeBuffered(settled, want);
            && got == Bytes(s.rxBuf[..n]) && after == s.(rxBuf := s.rxBuf[n..], unacked := after.unacked)
            && (ack.Some? ==>
                  ack.value.ids == ChannelIds(s.local, s.remote.value)
                  && ack.value.len == s.unacked - after.unacked > 0)
            && (s.policy.ack == Delayed && s.unacked == |s.rxBuf| ==>
                  after.unacked == |after.rxBuf| && (ack.None? <==> want == 0))
            && (s.policy.ack == Classic ==>
                  && (ack.Some? <==> s.unacked > 0 && |after.rxBuf| < s.policy.watermark)
                  && after.unacked == if ack.Some? then 0 else s.unacked)
            && (ack.None? ==> after.unacked == s.unacked)
  {
  }

  /** A read that was settled before takes no more than was settled. */
  lemma SettledComeFirst(s: Slot, want: nat)
    requires Sound(s) && HasData(s) && s.settled > 0
    ensures var (after, got) := TakeBuffered(s, want);
            && SettleTake(s, want) == (s, None)
            && got == Bytes(s.rxBuf[..Min(want, s.settled)]) && after.settled == s.settled - Min(want, s.settled)
            && after.unacked == s.unacked
  {
  }

  function ApplyClose(s: Slot): Slot {
    s.(state := Closed, unacked := 0)
  }

  function Fail(s: Slot, fault: Fault): Slot {
    s.(failed := Some(fault), state := Closed, unacked := 0)
  }

  // ---- sending ----

  function Budget(s: Slot): (r: Option<nat>)
    ensures r.Some? ==> r.value > 0
  {
    match s.policy.ack
    case Delayed => if s.sendBudget > 0 then Some(s.sendBudget) else None
    case Classic => if s.wrteAcked then Some(USIZE_MAX) else None
  }

  function Spend(s: Slot, n: nat): Slot {
    match s.policy.ack
    case Delayed => s.(sendBudget := s.sendBudget - n)
    case Classic => s.(wrteAcked := false)
  }

  function TryReserve(s: Slot, want: nat): (r: Option<(Slot, nat)>)
    ensures r.Some? <==> Budget(s).Some?
    ensures r.Some? ==> r.value.1 <= want && (want > 0 ==> r.value.1 > 0)
    ensures r.Some? && s.policy.ack == Delayed ==> r.value.0.sendBudget >= 0
  {
    match Budget(s)
    case None => None
    case Some(budget) => var n := Min(budget, want); Some((Spend(s, n), n))
  }

  function Refund(s: Slot, n: nat): Slot {
    match s.policy.ack
    case Delayed => s.(sendBudget := s.sendBudget + n)
    case Classic => s.(wrteAcked := true)
  }

  /** A reservation is the most that is both wanted and there. */
  lemma ReserveIsMost(s: Slot, want: nat, n: nat)
    requires Budget(s).Some? && n <= want && n <= Budget(s).value
    ensures n <= TryReserve(s, want).value.1 <= Budget(s).value
    ensures s.policy.ack == Delayed ==>
              TryReserve(s, want).value.0.sendBudget + TryReserve(s, want).value.1 == s.sendBudget
    ensures s.policy.ack == Classic ==> Budget(TryReserve(s, want).value.0).None?
  {
  }

  /** Giving back a reservation restores the slot as it was before it. */
  lemma RefundUndoesReserve(s: Slot, want: nat)
    requires Budget(s).Some?
    ensures Refund(TryReserve(s, want).value.0, TryReserve(s, want).value.1) == s
  {
    if s.policy.ack == Classic { assert s.wrteAcked; }
  }

  // ---- the slot object ----

  class ChannelSlot {
    const local: nat
    const policy: RxPolicy
    var remote: Option<nat>
    var state: ChannelState
    var rxBuf: seq<byte>
    var wrteAcked: bool
    var sendBudget: int
    var unacked: nat
    var settled: nat
    const queue: SendQueue
    var failed: Option<Fault>

    function Value(): Slot
      reads this, queue
    {
      Slot(local, remote, state, policy, rxBuf, wrteAcked, sendBudget, unacked, settled, queue.Value(), failed)
    }

    constructor Opened(local: nat, policy: RxPolicy)
      ensures Value() == OpeningSlot(local, policy) && fresh(queue)
    {
      this.local, this.policy := local, policy;
      remote, state, rxBuf, wrteAcked := None, Opening, [], true;
      sendBudget, unacked, settled, failed := 0, 0, 0, None;
      queue := new SendQueue();
    }

    constructor Accepted(ids: ChannelIds, credit: nat, policy: RxPolicy)
      ensures Value() == AcceptedSlot(ids, credit, policy) && fresh(queue)
    {
      local, this.policy := ids.local, policy;
      remote, state, rxBuf, wrteAcked := Some(ids.remote), Open, [], true;
      sendBudget := if policy.ack == Delayed then credit else 0;
      unacked, settled, failed := 0, 0, None;
      queue := new SendQueue();
    }

    /** On a READY too short to carry credit the slot stays as it was. */
    method TakeOpenReady(from: nat, payload: seq<byte>) returns (ok: bool)
      modifies this
      ensures ok <==> AcceptOpenReady(old(Value()), from, payload).Some?
      ensures Value() == if ok then AcceptOpenReady(old(Value()), from, payload).value else old(Value())
    {
      if policy.ack == Delayed {
        var credit := ReadyCredit(payload);
        if credit.None? { return false; }
        sendBudget := credit.value;
      }
      remote := Some(from);
      state := Open;
      return true;
    }

    method TakeReady(payload: seq<byte>) returns (ok: bool)
      modifies this
      ensures ok <==> ApplyReady(old(Value()), payload).Some?
      ensures Value() == if ok then ApplyReady(old(Value()), payload).value else old(Value())
    {
      match policy.ack
      case Delayed =>
        var credit := ReadyCredit(payload);
        if credit.None? { return false; }
        sendBudget := sendBudget + credit.value;
        return true;
      case Classic =>
        wrteAcked := true;
        return true;
    }

    /** On overflow the slot stays as it was. */
    method TakeWrite(payload: seq<byte>) returns (ok: bool, ack: Option<PendingAck>)
      requires Sound(Value())
      modifies this
      ensures ok <==> ApplyWrite(old(Value()), payload).Some?
      ensures ok ==> (Value(), ack) == ApplyWrite(old(Value()), payload).value
      ensures !ok ==> Value() == old(Value()) && ack == None
      ensures Sound(Value())
    {
      if SaturatingAdd(|rxBuf| - settled, |payload|) > policy.rxCap {
        return false, None;
      }
      rxBuf := rxBuf + payload;
      unacked := SaturatingAdd(unacked, |payload|);
      if policy.ack == Classic && |rxBuf| - settled < policy.watermark {
        if remote.Some? {
          unacked := 0;
          return true, Some(PendingAck(ChannelIds(local, remote.value), |payload|));
        }
      }
      return true, None;
    }

    method DeliverTaken(taken: nat) returns (ack: Option<PendingAck>)
      modifies this
      ensures (Value(), ack) == Deliver(old(Value()), taken)
    {
      if policy.ack == Delayed {
        if remote.Some? && taken > 0 { return Some(PendingAck(ChannelIds(local, remote.value), taken)); }
        return None;
      }
      if |rxBuf| >= policy.watermark || remote.None? { return None; }
      ack := Some(PendingAck(ChannelIds(local, remote.value), unacked));
      unacked := 0;
    }

    method Settle(want: nat) returns (ack: Option<PendingAck>)
      requires Sound(Value())
      modifies this
      ensures (Value(), ack) == SettleTake(old(Value()), want)
      ensures Sound(Value())
    {
      if remote.None? || settled != 0 { return None; }
      var n := Min(want, |rxBuf|);
      var len := AckLen(Value(), n, |rxBuf| - n);
      if len.None? { return None; }
      unacked := unacked - len.value;
      settled := n;
      ack := Some(PendingAck(ChannelIds(local, remote.value), len.value));
    }

    /** Fill `buf` from its start with what the channel has buffered. */
    method TakeInto(buf: array<byte>) returns (taken: Taken)
      requires Sound(Value())
      modifies this, buf
      ensures (Value(), taken) == TakeBuffered(old(Value()), buf.Length)
      ensures taken.Bytes? ==> |taken.data| <= buf.Length && buf[..|taken.data|] == taken.data
      ensures taken.Bytes? ==> buf[|taken.data|..] == old(buf[..])[|taken.data|..]
      ensures !taken.Bytes? ==> buf[..] == old(buf[..])
    {
      if remote.None? || rxBuf == [] {
        return if state == Closed then Failed(ClosedError(Value())) else Nothing;
      }
      var ready := if settled == 0 then |rxBuf| else settled;
      var n := Min(buf.Length, ready);
      ghost var was := buf[..];
      for i := 0 to n
        invariant Value() == old(Value())
        invariant buf[..i] == rxBuf[..i] && buf[i..] == was[i..]
      {
        buf[i] := rxBuf[i];
        assert buf[..i + 1] == buf[..i] + [rxBuf[i]];
        assert buf[i + 1..] == buf[i..][1..] == was[i..][1..];
      }
      taken := Bytes(rxBuf[..n]);
      rxBuf := rxBuf[n..];
      settled := settled - Min(n, settled);
    }

    method Close()
      modifies this
      ensures Value() == ApplyClose(old(Value()))
    {
      state := Closed;
      unacked := 0;
    }

    method FailWith(fault: Fault)
      modifies this
      ensures Value() == Fail(old(Value()), fault)
    {
      failed := Some(fault);
      state := Closed;
      unacked := 0;
    }

    /** Reserve credit for up to `want` bytes; nothing changes without credit. */
    method Reserve(want: nat) returns (n: Option<nat>)
      modifies this
      ensures n.Some? <==> TryReserve(old(Value()), want).Some?
      ensures n.Some? ==> (Value(), n.value) == TryReserve(old(Value()), want).value
      ensures n.None? ==> Value() == old(Value())
    {
      var budget := Budget(Value());
      if budget.None? { return None; }
      var k := Min(budget.value, want);
      match policy.ack {
        case Delayed => sendBudget := sendBudget - k;
        case Classic => wrteAcked := false;
      }
      return Some(k);
    }

    /**
     `try_reserve` of a queued writer: it is served when it is its turn and there
     is credit, and then the queue moves on.
     */
    method ServeWriter(place: nat, want: nat) returns (n: Option<nat>)
      requires queue.Ok() && place in queue.Line()
      modifies this, queue
      ensures queue.Ok()
      ensures n.Some? <==> old(queue.Line())[0] == place && Budget(old(Value())).Some?
      ensures n.Some? ==> var (s, k) := TryReserve(old(Value()), want).value;
                          n.value == k && Value() == s.(queue := Serve(s.queue))
                          && queue.Line() == old(queue.Line())[1..]
      ensures n.None? ==> Value() == old(Value())
    {
      var turn := queue.Turn();
      if turn != place { return None; }
      n := Reserve(want);
      if n.Some? { queue.ServeFirst(); }
    }

    method GiveBack(n: nat)
      modifies this
      ensures Value() == Refund(old(Value()), n)
    {
      match policy.ack {
        case Delayed => sendBudget := sendBudget + n;
        case Classic => wrteAcked := true;
      }
    }
  }
}
