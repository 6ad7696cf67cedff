/**
 The table that owns the channel slots and routes every packet the device
 sends (libadb/src/base/channel_table.rs).
 */
module ChannelTables {
  import opened Prelude
  import opened SendQueues
  import opened Slots

  const U32_MAX: nat := 0xFFFF_FFFF

  datatype ChannelId = ChannelId(slot: nat, local: nat)

  datatype Command = Sync | Connect | OpenCmd | Ready | Close | Write | Auth | StartTls

  datatype Packet = Packet(command: Command, arg0: nat, arg1: nat, data: seq<byte>)

  datatype Outcome =
    | AckWrite(idx: nat, ack: PendingAck)
    | CreditGranted(idx: nat)
    | SlotClosed(idx: nat)
    | DataBuffered(idx: nat)
    | IncomingOpen(remote: nat, credit: nat, destination: seq<byte>)
    | CancelPendingOpen(remote: nat)
    | StrayReady(ids: ChannelIds)
    | ChannelFault(idx: nat, ids: ChannelIds, opening: bool, fault: Fault)
    | Unmatched

  type Entries = seq<Option<Slot>>

  datatype Table = Table(slots: Entries, nextLocalId: nat, policy: RxPolicy)

  /** Live local ids are non-zero, distinct and older than the next one. */
  ghost predicate TableOk(t: Table) {
    && 1 <= t.nextLocalId
    && (forall i :: 0 <= i < |t.slots| && t.slots[i].Some? ==>
          && Sound(t.slots[i].value) && t.slots[i].value.policy == t.policy
          && 0 < t.slots[i].value.local < t.nextLocalId)
    && (forall i, j :: 0 <= i < j < |t.slots| && t.slots[i].Some? && t.slots[j].Some? ==>
          t.slots[i].value.local != t.slots[j].value.local)
  }

  // ---- finding slots ----

  predicate Ours(entry: Option<Slot>, local: nat) {
    entry.Some? && entry.value.local == local
  }

  predicate ForRemote(entry: Option<Slot>, remote: nat) {
    entry.Some? && entry.value.remote == Some(remote)
  }

  function FirstFree(slots: Entries, from: nat := 0): (r: Option<nat>)
    requires from <= |slots|
    ensures r.Some? ==> from <= r.value < |slots| && slots[r.value].None?
    ensures r.Some? ==> forall j :: from <= j < r.value ==> slots[j].Some?
    ensures r.None? ==> forall j :: from <= j < |slots| ==> slots[j].Some?
    decreases |slots| - from
  {
    if from == |slots| then None
    else if slots[from].None? then Some(from)
    else FirstFree(slots, from + 1)
  }

  function FindLocal(slots: Entries, local: nat, from: nat := 0): (r: Option<nat>)
    requires from <= |slots|
    ensures r.Some? ==> from <= r.value < |slots| && Ours(slots[r.value], local)
    ensures r.Some? ==> forall j :: from <= j < r.value ==> !Ours(slots[j], local)
    ensures r.None? ==> forall j :: from <= j < |slots| ==> !Ours(slots[j], local)
    decreases |slots| - from
  {
    if from == |slots| then None
    else if Ours(slots[from], local) then Some(from)
    else FindLocal(slots, local, from + 1)
  }

  function FindRemote(slots: Entries, remote: nat, from: nat := 0): (r: Option<nat>)
    requires from <= |slots|
    ensures r.Some? ==> from <= r.value < |slots| && ForRemote(slots[r.value], remote)
    ensures r.Some? ==> forall j :: from <= j < r.value ==> !ForRemote(slots[j], remote)
    ensures r.None? ==> forall j :: from <= j < |slots| ==> !ForRemote(slots[j], remote)
    decreases |slots| - from
  {
    if from == |slots| then None
    else if ForRemote(slots[from], remote) then Some(from)
    else FindRemote(slots, remote, from + 1)
  }

  // ---- operations on values ----

  function NewTable(len: nat, policy: RxPolicy): (t: Table)
    ensures TableOk(t) && |t.slots| == len
  {
    Table(seq(len, _ => None), 1, policy)
  }

  /** `wrapping_add(1).max(1)` on the 32-bit counter. */
  function NextId(id: nat): (next: nat)
    ensures id < U32_MAX ==> next == id + 1
  {
    if id >= U32_MAX then 1 else id + 1
  }

  /** `None`: every slot is taken. The slot itself stays empty for now. */
  function Allocate(t: Table): (r: Option<(Table, ChannelId)>)
    ensures r.Some? ==> r.value.1.slot < |t.slots| && t.slots[r.value.1.slot].None?
    ensures r.None? <==> forall i :: 0 <= i < |t.slots| ==> t.slots[i].Some?
  {
    match FirstFree(t.slots)
    case None => None
    case Some(slot) => Some((t.(nextLocalId := NextId(t.nextLocalId)), ChannelId(slot, t.nextLocalId)))
  }

  /** The first empty slot, under an id no live channel carries; only the counter moves. */
  lemma AllocateIsFresh(t: Table, i: nat)
    requires TableOk(t) && i < |t.slots|
    ensures Allocate(t).None? <==> forall j :: 0 <= j < |t.slots| ==> t.slots[j].Some?
    ensures Allocate(t).Some? ==>
            var (t1, ch) := Allocate(t).value;
            && ch.slot < |t.slots| && t.slots[ch.slot].None?
            && t1 == t.(nextLocalId := NextId(ch.local)) && ch.local == t.nextLocalId && 0 < ch.local
            && (t.slots[i].Some? ==> t.slots[i].value.local != ch.local)
            && (i < ch.slot ==> t.slots[i].Some?)
  {
  }

  function SetSlot(t: Table, idx: nat, entry: Option<Slot>): Table
    requires idx < |t.slots|
  {
    t.(slots := t.slots[idx := entry])
  }

  function InsertOpening(t: Table, ch: ChannelId): Table
    requires ch.slot < |t.slots| && t.slots[ch.slot].None?
  {
    SetSlot(t, ch.slot, Some(OpeningSlot(ch.local, t.policy)))
  }

  function InsertAccepted(t: Table, ch: ChannelId, remote: nat, credit: nat): Table
    requires ch.slot < |t.slots| && t.slots[ch.slot].None?
  {
    SetSlot(t, ch.slot, Some(AcceptedSlot(ChannelIds(ch.local, remote), credit, t.policy)))
  }

  function Get(t: Table, ch: ChannelId): (r: Option<Slot>)
    ensures r.Some? ==> ch.slot < |t.slots| && t.slots[ch.slot] == r && r.value.local == ch.local
  {
    if ch.slot < |t.slots| && Ours(t.slots[ch.slot], ch.local) then t.slots[ch.slot] else None
  }

  function Free(t: Table, ch: ChannelId): (r: (Table, Option<Slot>))
    ensures r.1 == Get(t, ch)
  {
    match Get(t, ch)
    case None => (t, None)
    case Some(slot) => (SetSlot(t, ch.slot, None), Some(slot))
  }

  function CloseRemote(t: Table, remote: nat): (r: (Table, Option<nat>))
    ensures r.1.Some? ==> r.1.value < |t.slots| && ForRemote(t.slots[r.1.value], remote)
    ensures r.1.None? ==> r.0 == t
  {
    if remote == 0 then (t, None)
    else
      match FindRemote(t.slots, remote)
      case None => (t, None)
      case Some(idx) => (SetSlot(t, idx, Some(ApplyClose(t.slots[idx].value))), Some(idx))
  }

  /** Exactly one slot is closed, the first that carries the id; its unread bytes stay, and so does everything else. */
  lemma CloseRemoteClosesOne(t: Table, remote: nat, i: nat)
    requires i < |t.slots|
    ensures var (t1, closed) := CloseRemote(t, remote);
            && (closed.Some? <==> remote != 0 && exists j :: 0 <= j < |t.slots| && ForRemote(t.slots[j], remote))
            && |t1.slots| == |t.slots| && t1.nextLocalId == t.nextLocalId
            && (closed != Some(i) ==> t1.slots[i] == t.slots[i])
            && (closed == Some(i) ==>
                  && IsClosed(t1.slots[i].value) && ForRemote(t1.slots[i], remote)
                  && t1.slots[i].value.rxBuf == t.slots[i].value.rxBuf
                  && forall j :: 0 <= j < i ==> !ForRemote(t.slots[j], remote))
  {
  }

  function FaultAt(idx: nat, slot: Slot, remote: nat, fault: Fault): Outcome {
    ChannelFault(idx, ChannelIds(slot.local, remote), slot.state == Opening, fault)
  }

  /** The packet reaches the slot it names: the slot afterwards, and the outcome. */
  function OnSlot(idx: nat, slot: Slot, pkt: Packet): (Slot, Outcome)
    requires Sound(slot) && pkt.command in {Write, Ready, Close}
  {
    match pkt.command
    case Write =>
      if IsFailed(slot) then (slot, Unmatched)
      else
        (match ApplyWrite(slot, pkt.data)
         case None => (slot, FaultAt(idx, slot, pkt.arg0, RxOverflow))
         case Some((after, None)) => (after, DataBuffered(idx))
         case Some((after, Some(ack))) => (after, AckWrite(idx, ack)))
    case Ready =>
      if IsFailed(slot) then (slot, Unmatched)
      else
        (var granted := if slot.state == Opening then AcceptOpenReady(slot, pkt.arg0, pkt.data)
                        else ApplyReady(slot, pkt.data);
         match granted
         case None => (slot, FaultAt(idx, slot, pkt.arg0, ShortReadyPayload))
         case Some(after) => (after, CreditGranted(idx)))
    case Close => (ApplyClose(slot), SlotClosed(idx))
  }

  /** What a packet does to the slot it reaches: a WRTE that fits adds its bytes, and only a READY moves credit. */
  lemma OnSlotReceives(idx: nat, slot: Slot, pkt: Packet)
    requires Sound(slot) && pkt.command in {Write, Ready, Close}
    ensures var after := OnSlot(idx, slot, pkt).0;
            && after.local == slot.local && after.policy == slot.policy && Sound(after)
            && after.rxBuf == (if pkt.command == Write && !IsFailed(slot) && Fits(slot, pkt.data)
                               then slot.rxBuf + pkt.data else slot.rxBuf)
            && (pkt.command != Ready ==>
                  after.sendBudget == slot.sendBudget && after.wrteAcked == slot.wrteAcked
                  && after.remote == slot.remote)
            && (slot.remote.Some? ==> after.remote.Some?)
  {
  }

  /** A READY for a channel nobody holds any more. */
  function NoSlot(pkt: Packet): Outcome {
    if pkt.command == Ready && pkt.arg0 != 0 && pkt.arg1 != 0 then
      StrayReady(ChannelIds(pkt.arg1, pkt.arg0))
    else Unmatched
  }

  /** A packet that names one of our ids. */
  function Named(t: Table, pkt: Packet): (Table, Outcome)
    requires forall i :: 0 <= i < |t.slots| && t.slots[i].Some? ==> Sound(t.slots[i].value)
    requires pkt.command in {Write, Ready, Close}
  {
    match FindLocal(t.slots, pkt.arg1)
    case None => (t, NoSlot(pkt))
    case Some(idx) =>
      var (after, outcome) := OnSlot(idx, t.slots[idx].value, pkt);
      (SetSlot(t, idx, Some(after)), outcome)
  }

  function Dispatch(t: Table, pkt: Packet): (Table, Outcome)
    requires forall i :: 0 <= i < |t.slots| && t.slots[i].Some? ==> Sound(t.slots[i].value)
  {
    match pkt.command
    case Connect => (t, Unmatched)
    case Auth => (t, Unmatched)
    case StartTls => (t, Unmatched)
    case OpenCmd => (t, IncomingOpen(pkt.arg0, pkt.arg1, pkt.data))
    case Sync => (t, Unmatched)
    case _ =>
      if pkt.command == Close && pkt.arg1 == 0 then
        (match CloseRemote(t, pkt.arg0)
         case (after, Some(idx)) => (after, SlotClosed(idx))
         case (after, None) => (after, CancelPendingOpen(pkt.arg0)))
      else Named(t, pkt)
  }

  /** `waits_for_credit`: only a packet can move the channel's writers on. */
  predicate WaitsForCredit(t: Table, ch: ChannelId) {
    var slot := Get(t, ch);
    && slot.Some? && !IsClosed(slot.value) && Budget(slot.value).None?
    && !IsEmpty(slot.value.queue) && slot.value.queue.sending == 0
  }

  // ---- the table object ----

  ghost function EntryOf(slot: ChannelSlot?): Option<Slot>
    reads slot, if slot == null then {} else {slot.queue}
  {
    if slot == null then None else Some(slot.Value())
  }

  /** The entries of an array of slot objects. */
  ghost function EntriesOf(slots: seq<ChannelSlot?>): (e: Entries)
    reads slots, Queues(slots)
    ensures |e| == |slots| && forall i :: 0 <= i < |slots| ==> e[i] == EntryOf(slots[i])
  {
    if slots == [] then [] else EntriesOf(slots[..|slots| - 1]) + [EntryOf(slots[|slots| - 1])]
  }

  ghost function Queues(slots: seq<ChannelSlot?>): set<SendQueue> {
    set slot: ChannelSlot? | slot in slots && slot != null :: slot.queue
  }

  /** Each slot object is in one place, and so is its queue. */
  ghost predicate Apart(slots: seq<ChannelSlot?>) {
    forall i, j :: 0 <= i < j < |slots| && slots[i] != null && slots[j] != null ==>
      slots[i] != slots[j] && slots[i].queue != slots[j].queue
  }

  class ChannelTable {
    const slots: array<ChannelSlot?>
    var nextLocalId: nat
    const policy: RxPolicy

    ghost function Value(): Table
      reads this, slots, slots[..], Queues(slots[..])
    {
      Table(EntriesOf(slots[..]), nextLocalId, policy)
    }

    ghost predicate Ok()
      reads this, slots, slots[..], Queues(slots[..])
    {
      Apart(slots[..]) && TableOk(Value())
    }

    constructor (len: nat, policy: RxPolicy)
      ensures Value() == NewTable(len, policy) && Ok() && fresh(slots)
    {
      slots := new ChannelSlot?[len](_ => null);
      nextLocalId := 1;
      this.policy := policy;
      new;
      assert EntriesOf(slots[..]) == NewTable(len, policy).slots;
    }

    method AllocateId() returns (r: Option<ChannelId>)
      modifies `nextLocalId
      ensures r.Some? <==> Allocate(old(Value())).Some?
      ensures r.Some? ==> (Value(), r.value) == Allocate(old(Value())).value
      ensures r.None? ==> Value() == old(Value())
    {
      hide EntriesOf;
      var i := 0;
      while i < slots.Length && slots[i] != null
        invariant 0 <= i <= slots.Length
        invariant FirstFree(EntriesOf(slots[..]), i) == FirstFree(EntriesOf(slots[..]))
      {
        i := i + 1;
      }
      if i == slots.Length { return None; }
      assert FirstFree(EntriesOf(slots[..]), i) == Some(i);
      hide FirstFree;
      r := Some(ChannelId(i, nextLocalId));
      nextLocalId := NextId(nextLocalId);
      assert Value() == old(Value()).(nextLocalId := nextLocalId);
    }

    method PutOpening(ch: ChannelId)
      requires Ok() && ch.slot < slots.Length && slots[ch.slot] == null
      modifies slots
      ensures Apart(slots[..]) && Value() == InsertOpening(old(Value()), ch)
    {
      hide EntriesOf, TableOk;
      var slot := new ChannelSlot.Opened(ch.local, policy);
      slots[ch.slot] := slot;
      assert EntriesOf(slots[..]) == old(EntriesOf(slots[..]))[ch.slot := Some(slot.Value())];
    }

    method PutAccepted(ch: ChannelId, remote: nat, credit: nat)
      requires Ok() && ch.slot < slots.Length && slots[ch.slot] == null
      modifies slots
      ensures Apart(slots[..]) && Value() == InsertAccepted(old(Value()), ch, remote, credit)
    {
      hide EntriesOf, TableOk;
      var slot := new ChannelSlot.Accepted(ChannelIds(ch.local, remote), credit, policy);
      slots[ch.slot] := slot;
      assert EntriesOf(slots[..]) == old(EntriesOf(slots[..]))[ch.slot := Some(slot.Value())];
    }

    method Lookup(ch: ChannelId) returns (r: ChannelSlot?)
      ensures r != null ==> ch.slot < slots.Length && r == slots[ch.slot]
      ensures EntryOf(r) == Get(Value(), ch)
    {
      if ch.slot < slots.Length {
        var slot := slots[ch.slot];
        if slot != null && slot.local == ch.local { return slot; }
      }
      return null;
    }

    method FreeSlot(ch: ChannelId) returns (r: ChannelSlot?)
      requires Ok()
      modifies slots
      ensures Apart(slots[..]) && (Value(), EntryOf(r)) == Free(old(Value()), ch)
    {
      hide EntriesOf, TableOk;
      r := Lookup(ch);
      if r != null {
        slots[ch.slot] := null;
        assert EntriesOf(slots[..]) == old(EntriesOf(slots[..]))[ch.slot := None];
        assert Value() == SetSlot(old(Value()), ch.slot, None);
      } else {
        assert Value() == old(Value());
      }
    }

    method CloseByRemote(remote: nat) returns (r: Option<nat>)
      requires Ok()
      modifies slots[..]
      ensures slots[..] == old(slots[..]) && (Value(), r) == CloseRemote(old(Value()), remote)
    {
      hide EntriesOf, TableOk;
      if remote == 0 { return None; }
      var i := 0;
      while i < slots.Length && (slots[i] == null || slots[i].remote != Some(remote))
        invariant 0 <= i <= slots.Length
        invariant FindRemote(EntriesOf(slots[..]), remote, i) == FindRemote(EntriesOf(slots[..]), remote)
      {
        i := i + 1;
      }
      if i == slots.Length { return None; }
      assert FindRemote(EntriesOf(slots[..]), remote, i) == Some(i);
      hide FindRemote;
      slots[i].Close();
      assert EntriesOf(slots[..]) == old(EntriesOf(slots[..]))[i := EntryOf(slots[i])];
      assert Value() == SetSlot(old(Value()), i, EntryOf(slots[i]));
      return Some(i);
    }

    /** The packet reaches the slot at `i`. */
    method RouteTo(i: nat, pkt: Packet) returns (outcome: Outcome)
      requires i < slots.Length && slots[i] != null && Sound(slots[i].Value()) && pkt.command in {Write, Ready, Close}
      modifies slots[i]
      ensures slots[i] == old(slots[i]) && (slots[i].Value(), outcome) == OnSlot(i, old(slots[i].Value()), pkt)
    {
      var slot := slots[i];
      if pkt.command == Close {
        slot.Close();
        return SlotClosed(i);
      }
      if slot.failed.Some? { return Unmatched; }
      var fault := ChannelFault(i, ChannelIds(slot.local, pkt.arg0), slot.state == Opening, RxOverflow);
      if pkt.command == Write {
        var ok, ack := slot.TakeWrite(pkt.data);
        return if !ok then fault else if ack.Some? then AckWrite(i, ack.value) else DataBuffered(i);
      }
      var ok;
      if slot.state == Opening {
        ok := slot.TakeOpenReady(pkt.arg0, pkt.data);
      } else {
        ok := slot.TakeReady(pkt.data);
      }
      return if ok then CreditGranted(i) else fault.(fault := ShortReadyPayload);
    }

    method Find(local: nat) returns (r: Option<nat>)
      ensures r == FindLocal(EntriesOf(slots[..]), local)
    {
      var i := 0;
      while i < slots.Length && (slots[i] == null || slots[i].local != local)
        invariant 0 <= i <= slots.Length
        invariant FindLocal(EntriesOf(slots[..]), local, i) == FindLocal(EntriesOf(slots[..]), local)
      {
        i := i + 1;
      }
      return if i == slots.Length then None else Some(i);
    }

    /** A packet that names one of our ids. */
    method RouteNamed(pkt: Packet) returns (outcome: Outcome)
      requires Ok() && pkt.command in {Write, Ready, Close}
      modifies slots[..]
      ensures slots[..] == old(slots[..]) && (Value(), outcome) == Named(old(Value()), pkt)
    {
      hide OnSlot, FindLocal, NoSlot, EntriesOf;
      ghost var before := EntriesOf(slots[..]);
      var i := Find(pkt.arg1);
      if i.Some? {
        assert before[i.value] == EntryOf(slots[i.value]);
        outcome := RouteTo(i.value, pkt);
        assert EntriesOf(slots[..]) == before[i.value := EntryOf(slots[i.value])];
        assert Value() == SetSlot(old(Value()), i.value, EntryOf(slots[i.value]));
      } else {
        outcome := NoSlot(pkt);
        assert Value() == old(Value());
      }
    }

    method Route(pkt: Packet) returns (outcome: Outcome)
      requires Ok()
      modifies slots[..]
      ensures slots[..] == old(slots[..]) && (Value(), outcome) == Dispatch(old(Value()), pkt)
    {
      if pkt.command in {Connect, Auth, StartTls, Sync} { return Unmatched; }
      if pkt.command == OpenCmd { return IncomingOpen(pkt.arg0, pkt.arg1, pkt.data); }
      if pkt.command == Close && pkt.arg1 == 0 {
        var idx := CloseByRemote(pkt.arg0);
        return if idx.Some? then SlotClosed(idx.value) else CancelPendingOpen(pkt.arg0);
      }
      hide Named;
      outcome := RouteNamed(pkt);
    }

    /** `get_mut` and `fail`: the channel a handle names breaks off, and no other. */
    method FailChannel(ch: ChannelId, fault: Fault) returns (found: bool)
      requires Ok()
      modifies slots[..]
      ensures slots[..] == old(slots[..]) && (found <==> Get(old(Value()), ch).Some?)
      ensures Value() == if found then SetSlot(old(Value()), ch.slot, Some(Fail(Get(old(Value()), ch).value, fault)))
                         else old(Value())
    {
      hide EntriesOf, TableOk;
      var slot := Lookup(ch);
      found := slot != null;
      if slot != null {
        slot.FailWith(fault);
        assert EntriesOf(slots[..]) == old(EntriesOf(slots[..]))[ch.slot := EntryOf(slot)];
        assert Value() == SetSlot(old(Value()), ch.slot, EntryOf(slot));
      } else {
        assert Value() == old(Value());
      }
    }

    method AsksForCredit(ch: ChannelId) returns (r: bool)
      requires Get(Value(), ch).Some? ==> Valid(Get(Value(), ch).value.queue)
      ensures r <==> WaitsForCredit(Value(), ch)
    {
      hide EntriesOf;
      var slot := Lookup(ch);
      if slot == null || slot.state == Closed || Budget(slot.Value()).Some? { return false; }
      TurnIsFirst(slot.queue.Value());
      var empty := slot.queue.NobodyWaits();
      var sending := slot.queue.IsSending();
      return !empty && !sending;
    }
  }
}
