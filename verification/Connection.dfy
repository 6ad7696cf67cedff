/**
 The unsplit connection (libadb/src/base/connection.rs): one caller at a time
 reads and writes channels itself, acting on whatever else arrives meanwhile.
 */
module Connections {
  import opened Prelude
  import opened SendQueues
  import opened Slots
  import opened ChannelTables

  datatype CallError =
    OnChannel(error: ChannelError) | Desynchronized | StreamEnded | SendFailed | DeviceGone | ShortReady

  /** What becomes of one send: the packet is out, the write breaks or is dropped, or the device is found gone. */
  datatype SendEnd = Sent | Broken | Gone

  datatype Read = Data(bytes: seq<byte>) | ReadFailed(error: CallError)

  // ---- what packets carry ----

  /** The credit the READYs among `packets` bring to channel `local`. */
  ghost function CreditIn(packets: seq<Packet>, local: nat): nat {
    if packets == [] then 0
    else
      var p := packets[|packets| - 1];
      CreditIn(packets[..|packets| - 1], local)
      + if p.command == Ready && p.arg1 == local && ReadyCredit(p.data).Some? then ReadyCredit(p.data).value else 0
  }

  /** How many READYs among them are for channel `local`. */
  ghost function ReadiesIn(packets: seq<Packet>, local: nat): nat {
    if packets == [] then 0
    else
      var p := packets[|packets| - 1];
      ReadiesIn(packets[..|packets| - 1], local) + if p.command == Ready && p.arg1 == local then 1 else 0
  }

  /** The payloads of the WRTEs we sent, in order. */
  ghost function Written(packets: seq<Packet>): seq<byte> {
    if packets == [] then []
    else
      var p := packets[|packets| - 1];
      Written(packets[..|packets| - 1]) + if p.command == Write then p.data else []
  }

  ghost function WritesIn(packets: seq<Packet>): nat {
    if packets == [] then 0
    else WritesIn(packets[..|packets| - 1]) + if packets[|packets| - 1].command == Write then 1 else 0
  }

  lemma PushIn(packets: seq<Packet>, p: Packet, local: nat)
    ensures CreditIn(packets + [p], local) == CreditIn(packets, local)
              + (if p.command == Ready && p.arg1 == local && ReadyCredit(p.data).Some?
                 then ReadyCredit(p.data).value else 0)
    ensures ReadiesIn(packets + [p], local)
            == ReadiesIn(packets, local) + if p.command == Ready && p.arg1 == local then 1 else 0
    ensures Written(packets + [p]) == Written(packets) + if p.command == Write then p.data else []
    ensures WritesIn(packets + [p]) == WritesIn(packets) + if p.command == Write then 1 else 0
  {
    hide ReadyCredit;
    assert (packets + [p])[..|packets|] == packets;
  }

  // ---- credit over one call ----

  /** A channel's slot, and what has come and gone that bears on its send credit. */
  datatype Ledger = Ledger(slot: Option<Slot>, credit: nat, readies: nat, sent: nat, writes: nat)

  ghost function LedgerOf(table: Table, taken: seq<Packet>, outbox: seq<Packet>, ch: ChannelId): Ledger {
    Ledger(Get(table, ch), CreditIn(taken, ch.local), ReadiesIn(taken, ch.local), |Written(outbox)|, WritesIn(outbox))
  }

  /**
   Credit came in with READYs and went out with WRTEs, and nothing else moved
   it: to the byte with delayed ack; without, no more WRTEs than OKAYs allow.
   */
  ghost predicate Kept(a: Ledger, b: Ledger) {
    a.slot.Some? ==>
      && b.slot.Some? && b.slot.value.local == a.slot.value.local && b.slot.value.policy == a.slot.value.policy
      && a.credit <= b.credit && a.readies <= b.readies && a.sent <= b.sent && a.writes <= b.writes
      && (a.slot.value.policy.ack == Delayed ==>
            b.slot.value.sendBudget + (b.sent - a.sent) == a.slot.value.sendBudget + (b.credit - a.credit))
      && (a.slot.value.policy.ack == Classic ==>
            (if b.slot.value.wrteAcked then 1 else 0) + (b.writes - a.writes)
            <= (if a.slot.value.wrteAcked then 1 else 0) + (b.readies - a.readies))
  }

  lemma KeptOn(a: Ledger, b: Ledger, c: Ledger)
    requires Kept(a, b) && Kept(b, c)
    ensures Kept(a, c)
  {
  }

  /** A READY goes into the credit. */
  lemma ReadyKept(table: Table, taken: seq<Packet>, outbox: seq<Packet>, ch: ChannelId, pkt: Packet)
    requires TableOk(table) && Get(table, ch).Some? && pkt.command == Ready && pkt.arg1 == ch.local
    ensures var after := ApplyReady(Get(table, ch).value, pkt.data);
            Kept(LedgerOf(table, taken, outbox, ch),
                 LedgerOf(if after.Some? then Change(table, ch, after.value) else table, taken + [pkt], outbox, ch))
  {
    hide CreditIn, ReadiesIn, Written, WritesIn;
    PushIn(taken, pkt, ch.local);
  }

  /** Any other packet leaves it alone. */
  lemma OtherKept(table: Table, table': Table, taken: seq<Packet>, outbox: seq<Packet>, outbox': seq<Packet>,
                  ch: ChannelId, pkt: Packet)
    requires Get(table, ch).Some? ==>
               && Get(table', ch).Some? && Get(table', ch).value.sendBudget == Get(table, ch).value.sendBudget
               && Get(table', ch).value.wrteAcked == Get(table, ch).value.wrteAcked
               && Get(table', ch).value.policy == Get(table, ch).value.policy
    requires !(pkt.command == Ready && pkt.arg1 == ch.local)
    requires Written(outbox') == Written(outbox) && WritesIn(outbox') == WritesIn(outbox)
    ensures Kept(LedgerOf(table, taken, outbox, ch), LedgerOf(table', taken + [pkt], outbox', ch))
  {
    hide CreditIn, ReadiesIn, Written, WritesIn, ReadyCredit;
    PushIn(taken, pkt, ch.local);
  }

  /** A WRTE that got out is charged. */
  lemma SentKept(table: Table, taken: seq<Packet>, outbox: seq<Packet>, ch: ChannelId, pkt: Packet)
    requires TableOk(table) && Get(table, ch).Some? && Budget(Get(table, ch).value).Some? && pkt.command == Write
    ensures Kept(LedgerOf(table, taken, outbox, ch),
                 LedgerOf(Change(table, ch, Spend(Get(table, ch).value, |pkt.data|)), taken, outbox + [pkt], ch))
  {
    hide CreditIn, ReadiesIn, Written, WritesIn;
    PushIn(outbox, pkt, ch.local);
  }

  /** What packets that are no READY for it do to a channel: its credit stays as it is. */
  lemma DispatchKeepsCredit(t: Table, pkt: Packet, ch: ChannelId)
    requires TableOk(t) && Get(t, ch).Some? && !(pkt.command == Ready && pkt.arg1 == ch.local)
    ensures var after := Dispatch(t, pkt).0;
            && TableOk(after) && Get(after, ch).Some?
            && Get(after, ch).value.sendBudget == Get(t, ch).value.sendBudget
            && Get(after, ch).value.wrteAcked == Get(t, ch).value.wrteAcked
            && Get(after, ch).value.policy == Get(t, ch).value.policy
            && Get(after, ch).value.remote == Get(t, ch).value.remote
  {
    hide OnSlot, FindLocal, FindRemote, TableOk;
    if pkt.command == Close && pkt.arg1 == 0 {
      var closed := CloseRemote(t, pkt.arg0);
      if closed.1.Some? {
        SoundAt(t, closed.1.value);
        PutKeepsCredit(t, closed.1.value, ApplyClose(t.slots[closed.1.value].value), ch);
      }
    } else if pkt.command in {Write, Ready, Close} {
      var found := FindLocal(t.slots, pkt.arg1);
      if found.Some? {
        SoundAt(t, found.value);
        var slot := t.slots[found.value].value;
        OnSlotReceives(found.value, slot, pkt);
        PutKeepsCredit(t, found.value, OnSlot(found.value, slot, pkt).0, ch);
      }
    }
  }

  lemma SoundAt(t: Table, idx: nat)
    requires TableOk(t) && idx < |t.slots| && t.slots[idx].Some?
    ensures Sound(t.slots[idx].value)
  {
  }

  /** A slot changes: another channel's credit stays, and so does its own unless the change moves it. */
  lemma PutKeepsCredit(t: Table, idx: nat, slot: Slot, ch: ChannelId)
    requires TableOk(t) && Get(t, ch).Some? && idx < |t.slots| && t.slots[idx].Some?
    requires var before := t.slots[idx].value;
             && slot.local == before.local && slot.policy == before.policy && Sound(slot)
             && (before.local == ch.local ==>
                   slot.sendBudget == before.sendBudget && slot.wrteAcked == before.wrteAcked
                   && slot.remote == before.remote)
    ensures var after := SetSlot(t, idx, Some(slot));
            && TableOk(after) && Get(after, ch).Some?
            && Get(after, ch).value.sendBudget == Get(t, ch).value.sendBudget
            && Get(after, ch).value.wrteAcked == Get(t, ch).value.wrteAcked
            && Get(after, ch).value.policy == Get(t, ch).value.policy
            && Get(after, ch).value.remote == Get(t, ch).value.remote
  {
  }

  lemma DispatchKeepsTable(t: Table, pkt: Packet)
    requires TableOk(t)
    ensures TableOk(Dispatch(t, pkt).0) && |Dispatch(t, pkt).0.slots| == |t.slots|
  {
    if pkt.command in {Write, Ready, Close} && !(pkt.command == Close && pkt.arg1 == 0) {
      var found := FindLocal(t.slots, pkt.arg1);
      if found.Some? {
        hide OnSlot;
        OnSlotReceives(found.value, t.slots[found.value].value, pkt);
      }
    }
  }

  // ---- acknowledgements over one call ----

  predicate WriteFor(p: Packet, local: nat) { p.command == Write && p.arg1 == local }

  predicate OkayOf(p: Packet, local: nat) { p.command == Ready && p.arg0 == local }

  function CreditOf(p: Packet): nat { if ReadyCredit(p.data).Some? then ReadyCredit(p.data).value else 0 }

  /** The bytes, and the number, of the WRTEs among `packets` for channel `local`. */
  ghost function BytesFor(packets: seq<Packet>, local: nat): nat {
    if packets == [] then 0
    else
      var p := packets[|packets| - 1];
      BytesFor(packets[..|packets| - 1], local) + if WriteFor(p, local) then |p.data| else 0
  }

  ghost function WritesFor(packets: seq<Packet>, local: nat): nat {
    if packets == [] then 0
    else WritesFor(packets[..|packets| - 1], local) + if WriteFor(packets[|packets| - 1], local) then 1 else 0
  }

  /** The credit, and the number, of the OKAYs we sent for channel `local`. */
  ghost function ReturnedIn(packets: seq<Packet>, local: nat): nat {
    if packets == [] then 0
    else
      var p := packets[|packets| - 1];
      ReturnedIn(packets[..|packets| - 1], local) + if OkayOf(p, local) then CreditOf(p) else 0
  }

  ghost function OkaysIn(packets: seq<Packet>, local: nat): nat {
    if packets == [] then 0
    else OkaysIn(packets[..|packets| - 1], local) + if OkayOf(packets[|packets| - 1], local) then 1 else 0
  }

  lemma PushFor(packets: seq<Packet>, p: Packet, local: nat)
    ensures BytesFor(packets + [p], local) == BytesFor(packets, local) + if WriteFor(p, local) then |p.data| else 0
    ensures WritesFor(packets + [p], local) == WritesFor(packets, local) + if WriteFor(p, local) then 1 else 0
    ensures ReturnedIn(packets + [p], local) == ReturnedIn(packets, local) + if OkayOf(p, local) then CreditOf(p) else 0
    ensures OkaysIn(packets + [p], local) == OkaysIn(packets, local) + if OkayOf(p, local) then 1 else 0
  {
    hide WriteFor, OkayOf, CreditOf;
    assert (packets + [p])[..|packets|] == packets;
  }

  /**
   A channel's slot, the WRTEs that came for it, the OKAYs that went out for it, and
   how many sends did not get out.
   */
  datatype Receipts = Receipts(slot: Option<Slot>, bytes: nat, writes: nat, returned: nat, okays: nat, failures: nat)

  ghost function ReceiptsOf(table: Table, taken: seq<Packet>, outbox: seq<Packet>, failures: nat,
                            ch: ChannelId): Receipts {
    Receipts(Get(table, ch), BytesFor(taken, ch.local), WritesFor(taken, ch.local),
             ReturnedIn(outbox, ch.local), OkaysIn(outbox, ch.local), failures)
  }

  /** Bytes wait for an OKAY. */
  function Waiting(slot: Slot): nat { if slot.unacked > 0 then 1 else 0 }

  /**
   No OKAY without a WRTE: with delayed ack no credit goes back for bytes that did
   not come, without it no more OKAYs go out than WRTEs came and waited.
   */
  ghost predicate Earned(a: Receipts, b: Receipts) {
    a.slot.Some? ==>
      && b.slot.Some? && b.slot.value.local == a.slot.value.local && b.slot.value.policy == a.slot.value.policy
      && a.bytes <= b.bytes && a.writes <= b.writes && a.returned <= b.returned && a.okays <= b.okays
      && a.failures <= b.failures
      && (a.slot.value.policy.ack == Delayed ==>
            b.slot.value.unacked + (b.returned - a.returned) <= a.slot.value.unacked + (b.bytes - a.bytes))
      && (a.slot.value.policy.ack == Classic ==>
            Waiting(b.slot.value) + (b.okays - a.okays) <= Waiting(a.slot.value) + (b.writes - a.writes))
  }

  /** With delayed ack, and while every send gets out, the credit of each byte is returned or still to be. */
  ghost predicate Exact(a: Receipts, b: Receipts) {
    a.slot.Some? && b.slot.Some? && a.slot.value.policy.ack == Delayed && a.failures == b.failures && a.bytes <= b.bytes
    && a.slot.value.unacked + (b.bytes - a.bytes) < 0x1_0000_0000 ==>
      b.slot.value.unacked + (b.returned - a.returned) == a.slot.value.unacked + (b.bytes - a.bytes)
  }

  lemma EarnedOn(a: Receipts, b: Receipts, c: Receipts)
    requires Earned(a, b) && Earned(b, c)
    ensures Earned(a, c)
    ensures a.slot.Some? && Exact(a, b) && Exact(b, c) ==> Exact(a, c)
  {
  }

  lemma EarnedSame(a: Receipts)
    ensures Earned(a, a) && Exact(a, a)
  {
  }

  /** What a slot makes of WRTEs with so many bytes: the OKAY is for bytes that came, at most one for each WRTE. */
  ghost predicate Acks(before: Slot, after: Slot, ack: Option<PendingAck>, bytes: nat, writes: nat) {
    && after.local == before.local && after.policy == before.policy
    && (ack.Some? ==> ack.value.ids.local == before.local)
    && (before.policy.ack == Delayed ==>
          after.unacked + (if ack.Some? then ack.value.len else 0) <= before.unacked + bytes)
    && (before.policy.ack == Classic ==>
          Waiting(after) + (if ack.Some? then 1 else 0) <= Waiting(before) + writes)
  }

  ghost predicate AcksAll(before: Slot, after: Slot, ack: Option<PendingAck>, bytes: nat) {
    before.policy.ack == Delayed && before.unacked + bytes < 0x1_0000_0000 ==>
      after.unacked + (if ack.Some? then ack.value.len else 0) == before.unacked + bytes
  }

  /** The OKAY got out, or its send failed. */
  ghost predicate Answered(a: Receipts, b: Receipts, ack: Option<PendingAck>, mode: AckMode) {
    && a.failures <= b.failures
    && (|| (b.returned == a.returned && b.okays == a.okays && (ack.Some? ==> a.failures < b.failures))
        || (ack.Some? && b.returned == a.returned + CreditOf(Okay(ack.value, mode)) && b.okays == a.okays + 1))
  }

  lemma OkayCredit(ack: PendingAck, mode: AckMode)
    ensures CreditOf(Okay(ack, mode)) <= ack.len
    ensures mode == Delayed && ack.len < 0x1_0000_0000 ==> CreditOf(Okay(ack, mode)) == ack.len
  {
    if mode == Delayed {
      ReadyCreditInverts(ack.len % 0x1_0000_0000, []);
      assert U32ToLe(ack.len % 0x1_0000_0000) + [] == U32ToLe(ack.len % 0x1_0000_0000);
    }
  }

  lemma AckEarned(a: Receipts, b: Receipts, ack: Option<PendingAck>, bytes: nat, writes: nat)
    requires a.slot.Some? && b.slot.Some? && Acks(a.slot.value, b.slot.value, ack, bytes, writes)
    requires b.bytes == a.bytes + bytes && b.writes == a.writes + writes && Answered(a, b, ack, a.slot.value.policy.ack)
    ensures Earned(a, b)
    ensures AcksAll(a.slot.value, b.slot.value, ack, bytes) ==> Exact(a, b)
  {
    hide CreditOf, OkayPayload;
    if ack.Some? { OkayCredit(ack.value, a.slot.value.policy.ack); }
  }

  lemma CloseEarned(a: Receipts, b: Receipts)
    requires a.slot.Some? && b == a.(slot := Some(ApplyClose(a.slot.value)), bytes := b.bytes, writes := b.writes)
    requires a.bytes <= b.bytes && a.writes <= b.writes
    ensures Earned(a, b)
  {
  }

  lemma SettleAcks(slot: Slot, want: nat)
    requires Sound(slot)
    ensures var (after, ack) := SettleTake(slot, want);
            Acks(slot, after, ack, 0, 0) && AcksAll(slot, after, ack, 0)
  {
  }

  /** Taking the bytes afterwards moves nothing that concerns acknowledgements. */
  lemma TakeKeepsAcks(slot: Slot, settled: Slot, want: nat, ack: Option<PendingAck>)
    requires Sound(settled) && Acks(slot, settled, ack, 0, 0) && AcksAll(slot, settled, ack, 0)
    ensures var after := TakeBuffered(settled, want).0;
            && Acks(slot, after, ack, 0, 0) && AcksAll(slot, after, ack, 0)
            && after.local == settled.local && after.policy == settled.policy && Sound(after)
            && after.remote == settled.remote && after.failed == settled.failed && after.state == settled.state
  {
  }

  lemma DeliverAcks(slot: Slot, n: nat)
    ensures var (after, ack) := Deliver(slot, n);
            Acks(slot, after, ack, n, 1) && (slot.remote.Some? ==> AcksAll(slot, after, ack, n))
  {
  }

  lemma DeliverKeeps(slot: Slot, n: nat)
    requires Sound(slot)
    ensures var (after, ack) := Deliver(slot, n);
            && after.local == slot.local && after.policy == slot.policy && after.rxBuf == slot.rxBuf && Sound(after)
            && (ack.Some? ==> ack.value.ids.local == slot.local)
  {
  }

  /** A channel somebody was handed, and that no packet broke. */
  predicate InUse(slot: Slot) { slot.state != Opening && slot.failed.None? }

  lemma OnSlotAcks(idx: nat, slot: Slot, pkt: Packet)
    requires Sound(slot) && pkt.command in {Write, Ready, Close}
    ensures var (after, out) := OnSlot(idx, slot, pkt);
            var bytes, writes := if pkt.command == Write then |pkt.data| else 0, if pkt.command == Write then 1 else 0;
            var ack := if out.AckWrite? then Some(out.ack) else None;
            && Acks(slot, after, ack, bytes, writes)
            && (slot.failed.None? && !out.ChannelFault? && pkt.command != Close ==> AcksAll(slot, after, ack, bytes))
            && (InUse(slot) ==> InUse(after) && after.remote == slot.remote)
  {
  }

  /** The OKAY a dispatched packet makes for channel `local`. */
  function AckFor(out: Outcome, local: nat): Option<PendingAck> {
    if out.AckWrite? && out.ack.ids.local == local then Some(out.ack) else None
  }

  lemma PutSlot(t: Table, idx: nat, slot: Slot, ch: ChannelId)
    requires TableOk(t) && Get(t, ch).Some? && idx < |t.slots| && t.slots[idx].Some?
             && slot.local == t.slots[idx].value.local
    ensures Get(SetSlot(t, idx, Some(slot)), ch) == if slot.local == ch.local then Some(slot) else Get(t, ch)
    ensures slot.local == ch.local ==> t.slots[idx] == Get(t, ch)
  {
  }

  /** What a dispatched packet does to a channel's acknowledgements. */
  lemma DispatchAcks(t: Table, pkt: Packet, ch: ChannelId)
    requires TableOk(t) && Get(t, ch).Some? && Get(t, ch).value.remote.Some?
    ensures var (t1, out) := Dispatch(t, pkt);
            var before := Get(t, ch).value;
            var bytes := if WriteFor(pkt, ch.local) then |pkt.data| else 0;
            var writes := if WriteFor(pkt, ch.local) then 1 else 0;
            && Get(t1, ch).Some?
            && Acks(before, Get(t1, ch).value, AckFor(out, ch.local), bytes, writes)
            && (InUse(before) ==> InUse(Get(t1, ch).value) && Get(t1, ch).value.remote == before.remote)
            && (InUse(before) && !out.ChannelFault? && !ClosedBy(ChannelIds(ch.local, before.remote.value), pkt) ==>
                  AcksAll(before, Get(t1, ch).value, AckFor(out, ch.local), bytes))
  {
    hide OnSlot, FindLocal, FindRemote, TableOk;
    if pkt.command == Close && pkt.arg1 == 0 {
      var closed := CloseRemote(t, pkt.arg0);
      if closed.1.Some? { PutSlot(t, closed.1.value, ApplyClose(t.slots[closed.1.value].value), ch); }
    } else if pkt.command in {Write, Ready, Close} {
      var found := FindLocal(t.slots, pkt.arg1);
      if found.Some? {
        SoundAt(t, found.value);
        var slot := t.slots[found.value].value;
        OnSlotAcks(found.value, slot, pkt);
        PutSlot(t, found.value, OnSlot(found.value, slot, pkt).0, ch);
      }
    }
  }

  lemma AnswersMine(out: Outcome, full: bool, mode: AckMode, local: nat)
    ensures var p, ack := AnswerTo(out, full, mode), AckFor(out, local);
            if ack.Some? then p == Some(Okay(ack.value, mode)) && ack.value.ids.local == local
            else p.Some? ==> !OkayOf(p.value, local)
  {
  }

  lemma ActEarned(t: Table, pkt: Packet, ch: ChannelId, a: Receipts, b: Receipts, outbox: seq<Packet>,
                  outbox': seq<Packet>, full: bool)
    requires TableOk(t) && Get(t, ch).Some? && Get(t, ch).value.remote.Some?
    requires a.slot == Get(t, ch) && b.slot == Get(Dispatch(t, pkt).0, ch)
    requires b.bytes == a.bytes + (if WriteFor(pkt, ch.local) then |pkt.data| else 0)
    requires b.writes == a.writes + (if WriteFor(pkt, ch.local) then 1 else 0)
    requires a.returned == ReturnedIn(outbox, ch.local) && a.okays == OkaysIn(outbox, ch.local)
    requires b.returned == ReturnedIn(outbox', ch.local) && b.okays == OkaysIn(outbox', ch.local)
    requires SendsOne(outbox, outbox', AnswerTo(Dispatch(t, pkt).1, full, t.policy.ack), a.failures, b.failures)
    ensures Earned(a, b)
    ensures InUse(a.slot.value) && !Dispatch(t, pkt).1.ChannelFault?
              && !ClosedBy(ChannelIds(ch.local, a.slot.value.remote.value), pkt) ==>
              Exact(a, b)
  {
    hide Dispatch, ReturnedIn, OkaysIn, Earned, Exact, Acks, AcksAll, Answered, OkayPayload, AnswerTo, AckFor, SendsOne;
    var out := Dispatch(t, pkt).1;
    DispatchAcks(t, pkt, ch);
    AnswersMine(out, full, t.policy.ack, ch.local);
    SendShows(a, b, outbox, outbox', AnswerTo(out, full, t.policy.ack), ch.local, AckFor(out, ch.local), t.policy.ack);
    AckEarned(a, b, AckFor(out, ch.local), if WriteFor(pkt, ch.local) then |pkt.data| else 0,
              if WriteFor(pkt, ch.local) then 1 else 0);
  }

  /** A send shows in the receipts: as the OKAY it was, or not at all. */
  lemma SendShows(a: Receipts, b: Receipts, outbox: seq<Packet>, outbox': seq<Packet>, p: Option<Packet>,
                  local: nat, ack: Option<PendingAck>, mode: AckMode)
    requires SendsOne(outbox, outbox', p, a.failures, b.failures)
    requires a.returned == ReturnedIn(outbox, local) && a.okays == OkaysIn(outbox, local)
    requires b.returned == ReturnedIn(outbox', local) && b.okays == OkaysIn(outbox', local)
    requires if ack.Some? then p == Some(Okay(ack.value, mode)) && ack.value.ids.local == local
             else p.Some? ==> !OkayOf(p.value, local)
    ensures Answered(a, b, ack, mode)
  {
    hide ReturnedIn, OkaysIn, CreditOf, OkayPayload;
    if p.Some? { PushFor(outbox, p.value, local); }
  }

  predicate ClosedBy(ids: ChannelIds, pkt: Packet) {
    pkt.command == Close && (pkt.arg1 == ids.local || (pkt.arg1 == 0 && pkt.arg0 == ids.remote))
  }

  function Okay(ack: PendingAck, mode: AckMode): Packet {
    Packet(Ready, ack.ids.local, ack.ids.remote, OkayPayload(mode, ack))
  }

  /**
   What the device gets to hear about a dispatched packet: an OKAY, a refusal, or a CLSE
   for a channel nobody holds.
   */
  function AnswerTo(outcome: Outcome, full: bool, mode: AckMode): (r: Option<Packet>)
    ensures r.Some? ==> r.value.command == Ready || r.value.command == Close
  {
    match outcome
    case AckWrite(_, ack) => Some(Okay(ack, mode))
    case IncomingOpen(remote, _, _) => if full then Some(Packet(Close, 0, remote, [])) else None
    case StrayReady(ids) => Some(Packet(Close, ids.local, ids.remote, []))
    case _ => None
  }

  /** The requests that wait after it. */
  function QueueAfter(incoming: seq<nat>, outcome: Outcome, full: bool): seq<nat> {
    match outcome
    case IncomingOpen(remote, _, _) => if full then incoming else incoming + [remote]
    case CancelPendingOpen(remote) => Remove(incoming, remote)
    case _ => incoming
  }

  /** The one packet there is to send got out, or its send failed. */
  predicate SendsOne(before: seq<Packet>, after: seq<Packet>, p: Option<Packet>, failures: nat, failures': nat) {
    if p.None? then after == before && failures' == failures
    else (after == before + [p.value] && failures' == failures) || (after == before && failures' == failures + 1)
  }

  /** Packets were added, but no WRTE. */
  predicate NoWrites(before: seq<Packet>, after: seq<Packet>) {
    before <= after && forall k :: |before| <= k < |after| ==> after[k].command != Write
  }

  /** Packets were added, and every WRTE among them is for the channel. */
  predicate WritesTo(before: seq<Packet>, after: seq<Packet>, local: nat, remote: Option<nat>) {
    && before <= after
    && forall k :: |before| <= k < |after| && after[k].command == Write ==>
         after[k].arg0 == local && Some(after[k].arg1) == remote
  }

  lemma WritesGoOn(a: seq<Packet>, b: seq<Packet>, c: seq<Packet>, local: nat, remote: Option<nat>)
    requires WritesTo(a, b, local, remote) && (NoWrites(b, c) || WritesTo(b, c, local, remote))
    ensures WritesTo(a, c, local, remote)
  {
  }

  function RemoteOf(t: Table, ch: ChannelId): Option<nat> { if Get(t, ch).Some? then Get(t, ch).value.remote else None }

  function Change(t: Table, ch: ChannelId, slot: Slot): Table
    requires Get(t, ch).Some?
  {
    SetSlot(t, ch.slot, Some(slot))
  }

  lemma ChangeKeepsTable(t: Table, ch: ChannelId, slot: Slot)
    requires TableOk(t) && Get(t, ch).Some?
    requires slot.local == ch.local && slot.policy == Get(t, ch).value.policy && Sound(slot)
    ensures TableOk(Change(t, ch, slot)) && Get(Change(t, ch, slot), ch) == Some(slot)
  {
  }

  class Connection {
    var table: Table
    var outbox: seq<Packet>
    var desync: bool
    var incoming: seq<nat>
    const maxPayload: nat

    // The transport: what it delivers before the stream ends, and what becomes of each send.
    var inbox: seq<Packet>
    var sends: seq<SendEnd>
    ghost var taken: seq<Packet>
    ghost var failures: nat

    ghost predicate Valid()
      reads this
    {
      TableOk(table)
    }

    constructor (len: nat, policy: RxPolicy, limit: nat, packets: seq<Packet>, takes: seq<SendEnd>)
      ensures Valid() && table == NewTable(len, policy) && maxPayload == limit && inbox == packets && sends == takes
      ensures outbox == [] && taken == [] && incoming == [] && !desync && failures == 0
    {
      table, outbox, desync, incoming, maxPayload := NewTable(len, policy), [], false, [], limit;
      inbox, sends, taken, failures := packets, takes, [], 0;
    }

    ghost function Credit(ch: ChannelId): Ledger
      reads this
    {
      LedgerOf(table, taken, outbox, ch)
    }

    ghost function Acked(ch: ChannelId): Receipts
      reads this
    {
      ReceiptsOf(table, taken, outbox, failures, ch)
    }

    method Recv() returns (p: Option<Packet>)
      modifies this`inbox, this`taken
      ensures p.None? <==> old(inbox) == []
      ensures p.None? ==> inbox == old(inbox) && taken == old(taken)
      ensures p.Some? ==> [p.value] + inbox == old(inbox) && taken == old(taken) + [p.value]
    {
      if inbox == [] { return None; }
      p := Some(inbox[0]);
      taken := taken + [inbox[0]];
      inbox := inbox[1..];
    }

    /** A write that breaks leaves the stream out of step; with the device gone there is none to be out of step with. */
    method SendPkt(p: Packet) returns (end: SendEnd)
      modifies this`outbox, this`sends, this`desync, this`failures
      ensures outbox == if end == Sent then old(outbox) + [p] else old(outbox)
      ensures failures == if end == Sent then old(failures) else old(failures) + 1
      ensures end == Broken <==> desync
      ensures old(desync) ==> desync
    {
      failures := failures + 1;
      if desync { return Broken; }
      if sends == [] {
        desync := true;
        return Broken;
      }
      end := sends[0];
      sends := sends[1..];
      match end {
        case Sent =>
          outbox := outbox + [p];
          failures := old(failures);
        case Broken => desync := true;
        case Gone =>
      }
    }

    /**
     `act_on` and `dispatch`: the table takes the packet, a request joins or leaves
     the queue, and what is owed an answer is answered; that the device is gone is
     no failure of the call.
     */
    method ActOn(pkt: Packet) returns (r: Option<CallError>)
      requires Valid()
      modifies this`table, this`outbox, this`sends, this`desync, this`failures, this`incoming
      ensures Valid() && table == Dispatch(old(table), pkt).0
      ensures var outcome, full := Dispatch(old(table), pkt).1, |old(incoming)| >= |old(table).slots|;
              && incoming == QueueAfter(old(incoming), outcome, full)
              && SendsOne(old(outbox), outbox, AnswerTo(outcome, full, old(table).policy.ack), old(failures), failures)
              && (r.None? ==> !outcome.ChannelFault?)
              && (r == Some(SendFailed) ==> desync && AnswerTo(outcome, full, old(table).policy.ack).Some?)
              && (outcome.ChannelFault? ==> r == Some(OnChannel(Faulted(outcome.fault))))
      ensures NoWrites(old(outbox), outbox) && Written(outbox) == Written(old(outbox))
              && WritesIn(outbox) == WritesIn(old(outbox))
    {
      DispatchKeepsTable(table, pkt);
      var (after, outcome) := Dispatch(table, pkt);
      var mode := table.policy.ack;
      table := after;
      hide Dispatch;
      r := None;
      var answer: Option<Packet> := None;
      match outcome {
        case AckWrite(_, ack) => answer := Some(Okay(ack, mode));
        case IncomingOpen(remote, _, _) =>
          if |incoming| >= |table.slots| {
            answer := Some(Packet(Close, 0, remote, []));
          } else {
            incoming := incoming + [remote];
          }
        case CancelPendingOpen(remote) => incoming := Remove(incoming, remote);
        case StrayReady(ids) => answer := Some(Packet(Close, ids.local, ids.remote, []));
        case ChannelFault(_, _, _, fault) => r := Some(OnChannel(Faulted(fault)));
        case _ =>
      }
      if answer.Some? {
        PushIn(outbox, answer.value, 0);
        var end := SendPkt(answer.value);
        if end == Broken { r := Some(SendFailed); }
      }
    }

    /**
     `wait_ack`: returns with credit on an open channel, or fails; either way every
     READY for the channel went into its credit and no WRTE got out.
     */
    method WaitAck(ch: ChannelId) returns (r: Option<CallError>)
      requires Valid()
      modifies this`table, this`outbox, this`sends, this`desync, this`failures, this`incoming, this`inbox, this`taken
      ensures Valid() && Kept(old(Credit(ch)), Credit(ch))
      ensures NoWrites(old(outbox), outbox) && Written(outbox) == Written(old(outbox))
              && WritesIn(outbox) == WritesIn(old(outbox))
      ensures RemoteOf(table, ch) == old(RemoteOf(table, ch))
      ensures r.None? ==>
                Get(table, ch).Some? && Get(table, ch).value.state != Closed && Budget(Get(table, ch).value).Some?
    {
      hide CreditIn, ReadiesIn, Written, WritesIn, ReadyCredit;
      ghost var start := Credit(ch);
      while true
        invariant Valid() && Kept(start, Credit(ch)) && RemoteOf(table, ch) == old(RemoteOf(table, ch))
        invariant NoWrites(old(outbox), outbox) && Written(outbox) == Written(old(outbox))
                  && WritesIn(outbox) == WritesIn(old(outbox))
        decreases |inbox|
      {
        var slot := Get(table, ch);
        if slot.None? || IsClosed(slot.value) { return Some(OnChannel(ChannelClosed)); }
        if Budget(slot.value).Some? { return None; }
        if Ids(slot.value).None? { return Some(OnChannel(ChannelClosed)); }
        ghost var before := Credit(ch);
        var failed := AwaitOne(ch);
        KeptOn(start, before, Credit(ch));
        if failed.Some? { return failed; }
      }
    }

    /** One packet received while waiting for credit on `ch`. */
    method AwaitOne(ch: ChannelId) returns (r: Option<CallError>)
      requires Valid() && Get(table, ch).Some? && Get(table, ch).value.remote.Some?
      modifies this`table, this`outbox, this`sends, this`desync, this`failures, this`incoming, this`inbox, this`taken
      ensures Valid() && Kept(old(Credit(ch)), Credit(ch))
      ensures NoWrites(old(outbox), outbox) && Written(outbox) == Written(old(outbox))
              && WritesIn(outbox) == WritesIn(old(outbox))
      ensures RemoteOf(table, ch) == old(RemoteOf(table, ch))
      ensures r.None? ==> |inbox| < |old(inbox)|
    {
      hide CreditIn, ReadiesIn, Written, WritesIn, Kept, ApplyReady, Dispatch;
      var slot := Get(table, ch).value;
      var ids := ChannelIds(slot.local, slot.remote.value);
      ghost var tableThen, takenThen, outboxThen := table, taken, outbox;
      var pkt := Recv();
      if pkt.None? {
        KeptSame(Credit(ch));
        return Some(StreamEnded);
      }
      if pkt.value.command == Ready && pkt.value.arg1 == ids.local {
        ReadyKept(tableThen, takenThen, outboxThen, ch, pkt.value);
        var after := ApplyReady(slot, pkt.value.data);
        if after.None? { return Some(ShortReady); }
        ReadyKeepsSlot(slot, pkt.value);
        ChangeKeepsTable(table, ch, after.value);
        table := Change(table, ch, after.value);
        r := None;
      } else if ClosedBy(ids, pkt.value) {
        ChangeKeepsTable(table, ch, ApplyClose(slot));
        table := Change(table, ch, ApplyClose(slot));
        OtherKept(tableThen, table, takenThen, outboxThen, outbox, ch, pkt.value);
        r := Some(OnChannel(ChannelClosed));
      } else {
        DispatchKeepsCredit(table, pkt.value, ch);
        r := ActOn(pkt.value);
        OtherKept(tableThen, table, takenThen, outboxThen, outbox, ch, pkt.value);
      }
    }

    /**
     `write_channel`: the WRTEs of a call carry exactly its data, in order, in
     chunks within the limit, to the channel's own ids; one is sent only on credit,
     and every byte is paid for.
     */
    method WriteChannel(ch: ChannelId, data: seq<byte>) returns (r: Option<CallError>, ghost n: nat)
      requires Valid()
      modifies this`table, this`outbox, this`sends, this`desync, this`failures, this`incoming, this`inbox, this`taken
      ensures Valid() && Kept(old(Credit(ch)), Credit(ch))
      ensures n <= |data| && Written(outbox) == Written(old(outbox)) + data[..n]
      ensures WritesTo(old(outbox), outbox, ch.local, old(RemoteOf(table, ch)))
      ensures r.None? ==> n == |data|
    {
      hide CreditIn, ReadiesIn, Written, WritesIn, Kept, NoWrites;
      n := 0;
      ghost var start := Credit(ch);
      KeptSame(start);
      assert data[..0] == [];
      if desync { return Some(Desynchronized), 0; }
      ghost var remote := RemoteOf(table, ch);
      var offset := 0;
      while offset < |data|
        invariant offset == n <= |data| && Valid() && Kept(start, Credit(ch))
        invariant Written(outbox) == Written(old(outbox)) + data[..n]
        invariant WritesTo(old(outbox), outbox, ch.local, remote) && RemoteOf(table, ch) == remote
      {
        ghost var before, outboxThen := Credit(ch), outbox;
        r := WaitAck(ch);
        KeptOn(start, before, Credit(ch));
        WritesGoOn(old(outbox), outboxThen, outbox, ch.local, remote);
        if r.Some? { return; }
        ghost var waited, outboxNow := Credit(ch), outbox;
        var chunk;
        r, chunk := SendChunk(ch, data[offset..]);
        KeptOn(start, waited, Credit(ch));
        WritesGoOn(old(outbox), outboxNow, outbox, ch.local, remote);
        if r.Some? { return; }
        ChunkOf(data, offset, chunk, Written(old(outbox)));
        offset := offset + chunk;
        n := offset;
      }
      assert data[..|data|] == data;
      r := None;
    }

    /** One WRTE of as much of `rest` as the limit and the credit allow; charged once it got out. */
    method SendChunk(ch: ChannelId, rest: seq<byte>) returns (r: Option<CallError>, n: nat)
      requires Valid() && rest != [] && Get(table, ch).Some? && Budget(Get(table, ch).value).Some?
      modifies this`table, this`outbox, this`sends, this`desync, this`failures
      ensures Valid() && Kept(old(Credit(ch)), Credit(ch)) && n <= |rest|
      ensures r.None? ==> n > 0 && n <= Max(maxPayload, 1) && n <= Budget(old(Get(table, ch)).value).value
      ensures Written(outbox) == if r.None? then Written(old(outbox)) + rest[..n] else Written(old(outbox))
      ensures r.Some? ==> outbox == old(outbox)
      ensures r.None? ==> old(RemoteOf(table, ch)).Some?
                          && var p := Packet(Write, ch.local, old(RemoteOf(table, ch)).value, rest[..n]);
                             outbox == old(outbox) + [p]
      ensures WritesTo(old(outbox), outbox, ch.local, old(RemoteOf(table, ch)))
              && RemoteOf(table, ch) == old(RemoteOf(table, ch))
    {
      hide CreditIn, ReadiesIn, Written, WritesIn, Kept;
      var slot := Get(table, ch).value;
      n := Min(Min(|rest|, Max(maxPayload, 1)), Budget(slot).value);
      if Ids(slot).None? {
        KeptSame(Credit(ch));
        return Some(OnChannel(ChannelClosed)), n;
      }
      var pkt := Packet(Write, slot.local, slot.remote.value, rest[..n]);
      SentKept(table, taken, outbox, ch, pkt);
      PushIn(outbox, pkt, 0);
      KeptSame(Credit(ch));
      var end := SendPkt(pkt);
      if end != Sent { return Some(if end == Broken then SendFailed else DeviceGone), n; }
      ChangeKeepsTable(table, ch, Spend(slot, n));
      table := Change(table, ch, Spend(slot, n));
      r := None;
    }

    /** `take_buffered`: settle, acknowledge, take. The OKAY may fail; the bytes are handed over all the same. */
    method TakeBuffer(ch: ChannelId, want: nat) returns (r: Result<Option<seq<byte>>, CallError>)
      requires Valid()
      modifies this`table, this`outbox, this`sends, this`desync, this`failures
      ensures Valid()
      ensures r.Ok? && r.value.Some? ==> Buffered(old(table), ch) == r.value.value + Buffered(table, ch)
      ensures !(r.Ok? && r.value.Some?) ==> Buffered(table, ch) == Buffered(old(table), ch)
      ensures r.Ok? ==> Get(table, ch).Some? && old(Get(table, ch)).Some?
      ensures r.Ok? && r.value.Some? ==> Buffered(old(table), ch) != []
      ensures !(r.Ok? && r.value.Some?) && Get(table, ch).Some? && Get(table, ch).value.remote.Some? ==>
                Buffered(table, ch) == []
      ensures old(Get(table, ch)).Some? ==>
                && Get(table, ch).Some? && Get(table, ch).value.remote == old(Get(table, ch)).value.remote
                && (InUse(old(Get(table, ch)).value) ==> InUse(Get(table, ch).value))
      ensures r == Err(Desynchronized) ==> outbox == old(outbox) && failures == old(failures)
      ensures r != Err(Desynchronized) ==>
                SendsOne(old(outbox), outbox, ReadAck(old(table), ch, want), old(failures), failures)
      ensures Earned(old(Acked(ch)), Acked(ch)) && Exact(old(Acked(ch)), Acked(ch))
    {
      hide BytesFor, WritesFor, ReturnedIn, OkaysIn, Earned, Exact, Acks, AcksAll, Answered, OkayPayload;
      ghost var before := Acked(ch);
      EarnedSame(before);
      var slot := Get(table, ch);
      if !(slot.Some? && HasData(slot.value)) && desync { return Err(Desynchronized); }
      if slot.None? { return Err(OnChannel(ChannelClosed)); }
      var (settled, ack) := SettleTake(slot.value, want);
      SettleKeeps(slot.value, want);
      SettleAcks(slot.value, want);
      ChangeKeepsTable(table, ch, settled);
      table := Change(table, ch, settled);
      if ack.Some? {
        var _ := SendPkt(Okay(ack.value, table.policy.ack));
      }
      var (after, got) := TakeBuffered(settled, want);
      TakeKeepsAcks(slot.value, settled, want, ack);
      match got {
        case Bytes(bytes) =>
          ChangeKeepsTable(table, ch, after);
          table := Change(table, ch, after);
          r := Ok(Some(bytes));
        case Nothing => r := Ok(None);
        case Failed(error) => r := Err(OnChannel(error));
      }
      ghost var okay := if ack.Some? then Some(Okay(ack.value, old(table).policy.ack)) else None;
      SendShows(before, Acked(ch), old(outbox), outbox, okay, ch.local, ack, old(table).policy.ack);
      AckEarned(before, Acked(ch), ack, 0, 0);
    }

    /**
     `recv_data`: the bytes returned are the next of the channel's stream, whether
     they were buffered, come straight from a packet or by way of the buffer; a
     call that fails has taken none. `arrived`: what the packets it read added.
     */
    method ReadChannel(ch: ChannelId, want: nat) returns (r: Read, ghost arrived: seq<byte>)
      requires Valid()
      modifies this`table, this`outbox, this`sends, this`desync, this`failures, this`incoming, this`inbox, this`taken
      ensures Valid()
      ensures r.Data? ==> Buffered(old(table), ch) + arrived == r.bytes + Buffered(table, ch)
      ensures r.ReadFailed? ==> arrived == [] && Buffered(table, ch) == Buffered(old(table), ch)
      ensures arrived != [] ==> |old(taken)| < |taken|
                                && taken[|taken| - 1].command == Write && taken[|taken| - 1].arg1 == ch.local
                                && taken[|taken| - 1].data == arrived
      ensures Earned(old(Acked(ch)), Acked(ch))
      ensures r.Data? && old(Get(table, ch)).Some? && InUse(old(Get(table, ch)).value) ==>
                Exact(old(Acked(ch)), Acked(ch))
    {
      hide BytesFor, WritesFor, ReturnedIn, OkaysIn, Earned, Exact, SendsOne, ReadAck, Deliver, TableOk, InUse;
      arrived := [];
      ghost var start := Acked(ch);
      var first := TakeBuffer(ch, want);
      if first.Err? { return ReadFailed(first.error), []; }
      if first.value.Some? { return Data(first.value.value), []; }
      var slot := Get(table, ch);
      if slot.value.remote.None? { return ReadFailed(OnChannel(ChannelClosed)), []; }
      var ids := ChannelIds(slot.value.local, slot.value.remote.value);
      ghost var takenThen := taken;
      while true
        invariant Valid() && Get(table, ch).Some? && Get(table, ch).value.remote.Some? && ids.local == ch.local
        invariant Buffered(table, ch) == [] && Buffered(old(table), ch) == [] && takenThen == old(taken)
                  && |takenThen| <= |taken|
        invariant arrived == [] && start.slot.Some? && Earned(start, Acked(ch))
        invariant InUse(start.slot.value) ==>
                    InUse(Get(table, ch).value) && RemoteOf(table, ch) == Some(ids.remote) && Exact(start, Acked(ch))
        decreases |inbox|
      {
        ghost var before, takenNow := Acked(ch), taken;
        var pkt := Recv();
        if pkt.None? { return ReadFailed(StreamEnded), []; }
        if pkt.value.command == Write && pkt.value.arg1 == ids.local && |pkt.value.data| <= want {
          DeliverNow(ch, pkt.value, takenNow);
          EarnedOn(start, before, Acked(ch));
          return Data(pkt.value.data), pkt.value.data;
        } else if ClosedBy(ids, pkt.value) {
          CloseNow(ch, pkt.value, takenNow);
          EarnedOn(start, before, Acked(ch));
          return ReadFailed(OnChannel(ChannelClosed)), [];
        } else {
          var done;
          done, r, arrived := ReadDispatched(ch, want, pkt.value, takenNow);
          EarnedOn(start, before, Acked(ch));
          if done { return; }
        }
      }
    }

    /**
     The fast path: the payload of the WRTE just received is the caller's already; only
     its acknowledgement is left.
     */
    method DeliverNow(ch: ChannelId, pkt: Packet, ghost before: seq<Packet>)
      requires Valid() && Get(table, ch).Some? && Get(table, ch).value.remote.Some?
      requires WriteFor(pkt, ch.local) && taken == before + [pkt]
      modifies this`table, this`outbox, this`sends, this`desync, this`failures
      ensures Valid() && Buffered(table, ch) == Buffered(old(table), ch)
      ensures var ack := Deliver(old(Get(table, ch)).value, |pkt.data|).1;
              SendsOne(old(outbox), outbox, if ack.Some? then Some(Okay(ack.value, old(table).policy.ack)) else None,
                       old(failures), failures)
      ensures var a := ReceiptsOf(old(table), before, old(outbox), old(failures), ch);
              Earned(a, Acked(ch)) && Exact(a, Acked(ch))
    {
      hide BytesFor, WritesFor, ReturnedIn, OkaysIn, Earned, Exact, Acks, AcksAll, Answered, OkayPayload;
      ghost var a := ReceiptsOf(table, before, outbox, failures, ch);
      DeliverAcks(Get(table, ch).value, |pkt.data|);
      PushFor(before, pkt, ch.local);
      var (after, ack) := Deliver(Get(table, ch).value, |pkt.data|);
      DeliverKeeps(Get(table, ch).value, |pkt.data|);
      ChangeKeepsTable(table, ch, after);
      table := Change(table, ch, after);
      if ack.Some? {
        var _ := SendPkt(Okay(ack.value, table.policy.ack));
      }
      ghost var okay := if ack.Some? then Some(Okay(ack.value, old(table).policy.ack)) else None;
      SendShows(a, Acked(ch), old(outbox), outbox, okay, ch.local, ack, old(table).policy.ack);
      AckEarned(a, Acked(ch), ack, |pkt.data|, 1);
    }

    /** The device closed the channel the read is on. */
    method CloseNow(ch: ChannelId, pkt: Packet, ghost before: seq<Packet>)
      requires Valid() && Get(table, ch).Some? && taken == before + [pkt]
      modifies this`table
      ensures Valid() && Buffered(table, ch) == Buffered(old(table), ch)
      ensures Get(table, ch) == Some(ApplyClose(old(Get(table, ch)).value))
      ensures Earned(ReceiptsOf(old(table), before, outbox, failures, ch), Acked(ch))
    {
      hide BytesFor, WritesFor, ReturnedIn, OkaysIn, Earned;
      ghost var a := ReceiptsOf(table, before, outbox, failures, ch);
      ChangeKeepsTable(table, ch, ApplyClose(Get(table, ch).value));
      table := Change(table, ch, ApplyClose(Get(table, ch).value));
      PushFor(before, pkt, ch.local);
      CloseEarned(a, Acked(ch));
    }

    /** A packet that is not for the fast path: dispatch it, and take what it may have brought. */
    method ReadDispatched(ch: ChannelId, want: nat, pkt: Packet, ghost before: seq<Packet>)
      returns (done: bool, r: Read, ghost arrived: seq<byte>)
      requires Valid() && Get(table, ch).Some? && Get(table, ch).value.remote.Some? && Buffered(table, ch) == []
      requires taken == before + [pkt]
      modifies this`table, this`outbox, this`sends, this`desync, this`failures, this`incoming
      ensures Valid()
      ensures done && r.Data? ==> arrived == r.bytes + Buffered(table, ch)
      ensures done && r.ReadFailed? ==> arrived == [] && Buffered(table, ch) == []
      ensures !done ==> arrived == [] && Buffered(table, ch) == []
      ensures !done ==> Get(table, ch).Some? && Get(table, ch).value.remote.Some?
      ensures arrived != [] ==> pkt.command == Write && pkt.arg1 == ch.local && pkt.data == arrived
      ensures var a := ReceiptsOf(old(table), before, old(outbox), old(failures), ch);
              && Earned(a, Acked(ch))
              && (InUse(a.slot.value) && !ClosedBy(ChannelIds(ch.local, a.slot.value.remote.value), pkt)
                  && (done ==> r.Data?) ==>
                    Exact(a, Acked(ch)))
      ensures !done && InUse(old(Get(table, ch)).value) ==>
                InUse(Get(table, ch).value) && RemoteOf(table, ch) == old(RemoteOf(table, ch))
    {
      hide BytesFor, WritesFor, ReturnedIn, OkaysIn, Earned, Exact, Acks, AcksAll, Answered, OkayPayload;
      ghost var a := ReceiptsOf(table, before, outbox, failures, ch);
      DispatchAcks(table, pkt, ch);
      PushFor(before, pkt, ch.local);
      DispatchBuffers(table, pkt, ch);
      hide Dispatch;
      var dispatched := ActOn(pkt);
      ghost var b := Acked(ch);
      ActEarned(old(table), pkt, ch, a, b, old(outbox), outbox, |old(incoming)| >= |old(table).slots|);
      arrived := Buffered(table, ch);
      var took := TakeBuffer(ch, want);
      EarnedOn(a, b, Acked(ch));
      if took.Ok? && took.value.Some? { return true, Data(took.value.value), arrived; }
      if dispatched.Some? { return true, ReadFailed(dispatched.value), arrived; }
      if took.Err? { return true, ReadFailed(took.error), arrived; }
      done, r := false, ReadFailed(StreamEnded);
    }
  }

  /** The OKAY a read of `want` buffered bytes sends. */
  function ReadAck(t: Table, ch: ChannelId, want: nat): Option<Packet>
    requires TableOk(t)
  {
    if Get(t, ch).None? then None
    else
      var ack := SettleTake(Get(t, ch).value, want).1;
      if ack.Some? then Some(Okay(ack.value, t.policy.ack)) else None
  }

  /** The unread bytes of a channel. */
  function Buffered(t: Table, ch: ChannelId): seq<byte> { if Get(t, ch).Some? then Get(t, ch).value.rxBuf else [] }

  lemma SettleKeeps(slot: Slot, want: nat)
    requires Sound(slot)
    ensures var after := SettleTake(slot, want).0;
            after.local == slot.local && after.policy == slot.policy && after.rxBuf == slot.rxBuf
            && after.remote == slot.remote
            && after.state == slot.state && after.failed == slot.failed
  {
  }

  /** What a packet adds to a channel's unread bytes. */
  lemma DispatchBuffers(t: Table, pkt: Packet, ch: ChannelId)
    requires TableOk(t) && Get(t, ch).Some?
    ensures var after := Dispatch(t, pkt).0;
            && Get(after, ch).Some? && (Get(t, ch).value.remote.Some? ==> Get(after, ch).value.remote.Some?)
            && (Dispatch(t, pkt).1.ChannelFault? ==> Buffered(after, ch) == Buffered(t, ch))
            && (Buffered(after, ch) == Buffered(t, ch)
                || (pkt.command == Write && pkt.arg1 == ch.local && Buffered(after, ch) == Buffered(t, ch) + pkt.data))
  {
    if pkt.command in {Write, Ready, Close} && !(pkt.command == Close && pkt.arg1 == 0) {
      var found := FindLocal(t.slots, pkt.arg1);
      if found.Some? {
        hide OnSlot;
        OnSlotReceives(found.value, t.slots[found.value].value, pkt);
      }
    }
  }

  lemma KeptSame(a: Ledger)
    ensures Kept(a, a)
  {
  }

  lemma ReadyKeepsSlot(slot: Slot, pkt: Packet)
    requires Sound(slot)
    ensures var after := ApplyReady(slot, pkt.data);
            after.Some? ==>
              after.value.local == slot.local && after.value.policy == slot.policy && after.value.remote == slot.remote
                            && Sound(after.value)
  {
  }

  lemma ChunkOf(data: seq<byte>, offset: nat, n: nat, before: seq<byte>)
    requires offset + n <= |data|
    ensures before + data[..offset] + data[offset..][..n] == before + data[..offset + n]
  {
    assert data[..offset] + data[offset..][..n] == data[..offset + n];
  }

  function Remove(queue: seq<nat>, remote: nat): seq<nat> {
    if queue == [] then [] else (if queue[0] == remote then [] else [queue[0]]) + Remove(queue[1..], remote)
  }
}
