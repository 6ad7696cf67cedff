/**
 Channels do not mix (libadb/src/base/channel_table.rs): runs of one channel
 table, with what each channel was sent and what its readers got as history.
 */
module Isolation {
  import opened Prelude
  import opened SendQueues
  import opened Slots
  import opened ChannelTables

  /**
   `got`: payloads accepted per local id; `given`: bytes its readers took; `stale`:
   handles whose channel was freed.
   */
  datatype State = State(table: Table, got: map<nat, seq<byte>>, given: map<nat, seq<byte>>, stale: set<ChannelId>)

  datatype Event =
    | Open
    | Accept(remote: nat, credit: nat)
    | Arrives(pkt: Packet)
    | Withdrawn(remote: nat)
    | Settle(ch: ChannelId, want: nat)
    | Take(ch: ChannelId, want: nat)
    | Fault(ch: ChannelId, fault: Fault)
    | SendSide(ch: ChannelId, budget: int, acked: bool, queue: Queue)
    | FreeCh(ch: ChannelId)

  /** Allocation is bounded: ids start over only after 2^32 - 1 of them. */
  predicate Possible(s: State, e: Event) {
    match e
    case Open => s.table.nextLocalId < U32_MAX
    case Accept(_, _) => s.table.nextLocalId < U32_MAX
    case _ => true
  }

  function Added(s: State, table: Table, local: nat): State {
    s.(table := table, got := s.got[local := []], given := s.given[local := []])
  }

  /** The channel a WRTE is accepted by: the one that carries its id, if it has room and has not failed. */
  function AcceptedBy(t: Table, pkt: Packet): Option<nat>
    requires forall i :: 0 <= i < |t.slots| && t.slots[i].Some? ==> Sound(t.slots[i].value)
  {
    if pkt.command != Write then None
    else
      match FindLocal(t.slots, pkt.arg1)
      case None => None
      case Some(idx) =>
        if IsFailed(t.slots[idx].value) || !Fits(t.slots[idx].value, pkt.data) then None else Some(pkt.arg1)
  }

  function PutAt(t: Table, ch: ChannelId, slot: Slot): Table {
    if ch.slot < |t.slots| then SetSlot(t, ch.slot, Some(slot)) else t
  }

  function Next(s: State, e: Event): State
    requires forall i :: 0 <= i < |s.table.slots| && s.table.slots[i].Some? ==> Sound(s.table.slots[i].value)
  {
    match e
    case Open =>
      (match Allocate(s.table)
       case None => s
       case Some((t, ch)) => Added(s, InsertOpening(t, ch), ch.local))
    case Accept(remote, credit) =>
      (match Allocate(s.table)
       case None => s
       case Some((t, ch)) => Added(s, InsertAccepted(t, ch, remote, credit), ch.local))
    case Arrives(pkt) =>
      var after := s.(table := Dispatch(s.table, pkt).0);
      var local := AcceptedBy(s.table, pkt);
      if local.Some? && local.value in s.got
      then after.(got := s.got[local.value := s.got[local.value] + pkt.data]) else after
    case Withdrawn(remote) => s.(table := CloseRemote(s.table, remote).0)
    case Settle(ch, want) =>
      var slot := Get(s.table, ch);
      if slot.None? then s else s.(table := PutAt(s.table, ch, SettleTake(slot.value, want).0))
    case Take(ch, want) =>
      var slot := Get(s.table, ch);
      if slot.None? then s
      else
        var (after, taken) := TakeBuffered(slot.value, want);
        if taken.Bytes? && ch.local in s.given
        then s.(table := PutAt(s.table, ch, after), given := s.given[ch.local := s.given[ch.local] + taken.data]) else s
    case Fault(ch, fault) =>
      var slot := Get(s.table, ch);
      if slot.None? then s else s.(table := PutAt(s.table, ch, Fail(slot.value, fault)))
    case SendSide(ch, budget, acked, queue) =>
      var slot := Get(s.table, ch);
      if slot.None? then s
      else s.(table := PutAt(s.table, ch, slot.value.(sendBudget := budget, wrteAcked := acked, queue := queue)))
    case FreeCh(ch) =>
      if Get(s.table, ch).None? then s else s.(table := Free(s.table, ch).0, stale := s.stale + {ch})
  }

  // ---- what every step keeps ----

  ghost predicate Streamed(entry: Option<Slot>, got: map<nat, seq<byte>>, given: map<nat, seq<byte>>) {
    entry.Some? ==>
      var local := entry.value.local;
      local in got && local in given && given[local] + entry.value.rxBuf == got[local]
  }

  ghost predicate Retired(ch: ChannelId, t: Table) {
    ch.local < t.nextLocalId && forall i :: 0 <= i < |t.slots| ==> !Ours(t.slots[i], ch.local)
  }

  ghost predicate Inv(s: State) {
    && TableOk(s.table)
    && (forall i :: 0 <= i < |s.table.slots| ==> Streamed(s.table.slots[i], s.got, s.given))
    && (forall ch <- s.stale :: Retired(ch, s.table))
  }

  /** Every packet changes at most one slot: of any two, one is left alone. */
  lemma PacketTouchesOne(t: Table, pkt: Packet, i: nat, j: nat)
    requires TableOk(t) && i < |t.slots| && j < |t.slots| && i != j
    ensures |Dispatch(t, pkt).0.slots| == |t.slots|
    ensures Dispatch(t, pkt).0.slots[i] == t.slots[i] || Dispatch(t, pkt).0.slots[j] == t.slots[j]
    ensures Dispatch(t, pkt).0.nextLocalId == t.nextLocalId
  {
    hide OnSlot;
  }

  /** A slot changes, but neither its channel nor its bytes. */
  lemma SameBytesKeep(s: State, idx: nat, slot: Slot)
    requires Inv(s) && idx < |s.table.slots| && s.table.slots[idx].Some?
    requires var before := s.table.slots[idx].value;
             slot.local == before.local && slot.policy == before.policy && slot.rxBuf == before.rxBuf && Sound(slot)
    ensures Inv(s.(table := SetSlot(s.table, idx, Some(slot))))
  {
    assert Streamed(s.table.slots[idx], s.got, s.given);
  }

  /** A channel accepts a payload. */
  lemma GrowKeeps(s: State, idx: nat, slot: Slot, payload: seq<byte>)
    requires Inv(s) && idx < |s.table.slots| && s.table.slots[idx].Some?
    requires var before := s.table.slots[idx].value;
             slot.local == before.local && slot.policy == before.policy && slot.rxBuf == before.rxBuf + payload
             && Sound(slot)
    ensures slot.local in s.got
    ensures Inv(s.(table := SetSlot(s.table, idx, Some(slot)), got := s.got[slot.local := s.got[slot.local] + payload]))
  {
    assert Streamed(s.table.slots[idx], s.got, s.given);
    var before := s.table.slots[idx].value;
    assert s.given[slot.local] + (before.rxBuf + payload) == s.got[slot.local] + payload;
  }

  lemma ArrivesKeeps(s: State, pkt: Packet)
    requires Inv(s)
    ensures Inv(Next(s, Arrives(pkt)))
  {
    hide OnSlot;
    var t := s.table;
    assert TableOk(t);
    hide Inv;
    if pkt.command == Close && pkt.arg1 == 0 {
      OthersKeep(s, Withdrawn(pkt.arg0));
    } else if pkt.command in {Write, Ready, Close} && FindLocal(t.slots, pkt.arg1).Some? {
      var idx := FindLocal(t.slots, pkt.arg1).value;
      var slot := t.slots[idx].value;
      var after := OnSlot(idx, slot, pkt).0;
      OnSlotReceives(idx, slot, pkt);
      if AcceptedBy(t, pkt).Some? { GrowKeeps(s, idx, after, pkt.data); } else { SameBytesKeep(s, idx, after); }
    }
  }

  lemma AddKeeps(s: State, e: Event)
    requires Inv(s) && Possible(s, e) && (e.Open? || e.Accept?)
    ensures Inv(Next(s, e))
  {
  }

  lemma TakeKeeps(s: State, ch: ChannelId, want: nat)
    requires Inv(s)
    ensures Inv(Next(s, Take(ch, want)))
  {
    var slot := Get(s.table, ch);
    if slot.Some? {
      var (after, taken) := TakeBuffered(slot.value, want);
      assert Streamed(s.table.slots[ch.slot], s.got, s.given);
      if taken.Bytes? {
        assert s.given[ch.local] + taken.data + after.rxBuf == s.given[ch.local] + (taken.data + after.rxBuf);
      }
    }
  }

  lemma FreeKeeps(s: State, ch: ChannelId)
    requires Inv(s)
    ensures Inv(Next(s, FreeCh(ch)))
  {
  }

  lemma OthersKeep(s: State, e: Event)
    requires Inv(s) && !e.Open? && !e.Accept? && !e.Arrives? && !e.Take?
    ensures Inv(Next(s, e))
  {
    assert TableOk(s.table);
    hide Inv, Streamed;
    match e {
      case FreeCh(ch) => FreeKeeps(s, ch);
      case Withdrawn(remote) =>
        var closed := CloseRemote(s.table, remote);
        if closed.1.Some? { SameBytesKeep(s, closed.1.value, ApplyClose(s.table.slots[closed.1.value].value)); }
      case Settle(ch, want) =>
        var slot := Get(s.table, ch);
        if slot.Some? { SameBytesKeep(s, ch.slot, SettleTake(slot.value, want).0); }
      case Fault(ch, fault) =>
        var slot := Get(s.table, ch);
        if slot.Some? { SameBytesKeep(s, ch.slot, Fail(slot.value, fault)); }
      case SendSide(ch, budget, acked, queue) =>
        var slot := Get(s.table, ch);
        if slot.Some? {
          SameBytesKeep(s, ch.slot, slot.value.(sendBudget := budget, wrteAcked := acked, queue := queue));
        }
    }
  }

  // ---- runs ----

  function Start(len: nat, policy: RxPolicy): State { State(NewTable(len, policy), map[], map[], {}) }

  ghost predicate Runs(s: State, events: seq<Event>, end: State)
    decreases |events|
  {
    if events == [] then end == s
    else
      var n := |events| - 1;
      exists mid ::
        Runs(s, events[..n], mid) && TableOk(mid.table) && Possible(mid, events[n]) && end == Next(mid, events[n])
  }

  lemma {:induction false} RunKeeps(len: nat, policy: RxPolicy, events: seq<Event>, end: State)
    requires Runs(Start(len, policy), events, end)
    ensures Inv(end)
    decreases |events|
  {
    if events != [] {
      var n := |events| - 1;
      var e := events[n];
      var mid :|
        Runs(Start(len, policy), events[..n], mid) && TableOk(mid.table) && Possible(mid, e) && end == Next(mid, e);
      RunKeeps(len, policy, events[..n], mid);
      hide Inv, Next, Possible;
      if e.Open? || e.Accept? { AddKeeps(mid, e); }
      else if e.Arrives? { ArrivesKeeps(mid, e.pkt); }
      else if e.Take? { TakeKeeps(mid, e.ch, e.want); }
      else { OthersKeep(mid, e); }
    }
  }

  /**
   In every run of fewer than 2^32 - 1 allocations: live local ids are distinct
   and non-zero, a stale handle reaches no channel, and what the readers of a
   channel got, with what it has buffered, is what it was sent.
   */
  lemma ChannelsDoNotMix(len: nat, policy: RxPolicy, events: seq<Event>, end: State, i: nat, j: nat)
    requires Runs(Start(len, policy), events, end)
    requires i < |end.table.slots| && j < |end.table.slots| && end.table.slots[i].Some? && end.table.slots[j].Some?
    ensures 0 < end.table.slots[i].value.local
    ensures end.table.slots[i].value.local == end.table.slots[j].value.local ==> i == j
    ensures var slot := end.table.slots[i].value;
            && slot.local in end.got && slot.local in end.given
            && end.given[slot.local] + slot.rxBuf == end.got[slot.local]
    ensures forall ch <- end.stale :: Get(end.table, ch).None?
  {
    hide Runs;
    RunKeeps(len, policy, events, end);
    assert Streamed(end.table.slots[i], end.got, end.given);
  }
}
