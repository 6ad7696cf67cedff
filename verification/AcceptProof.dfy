/** When a request the device has withdrawn never becomes, or stays, an open channel. */
module AcceptProof {
  import opened Prelude
  import opened Slots
  import opened ChannelTables
  import opened AcceptMachine
  import ReceiveFlow

  // ---- invariants ----

  /** Where a handle is says what it holds. */
  predicate HandleShape(h: Handle) {
    && (h.stage == Undecided ==> h.pending && h.reserved.None? && !h.hit)
    && (h.stage == DropRequest || h.stage == Over ==> h.reserved.None?)
  }

  ghost predicate Holds(h: Handle, table: Table) {
    h.reserved.Some? ==>
      Get(table, h.reserved.value).Some? && Get(table, h.reserved.value).value.remote == Some(h.request.remote)
  }

  /** A slot that carries a staged request's id was reserved for it, unless the request was answered. */
  predicate OwnSlot(h: Handle, entry: Option<Slot>, idx: nat) {
    Staged(h) && h.pending && ForRemote(entry, h.request.remote) ==>
      h.reserved == Some(ChannelId(idx, entry.value.local))
  }

  // Everything that carries one remote id belongs to one request or channel.

  ghost predicate DistinctQueue(queue: seq<Request>) {
    forall a, b :: 0 <= a < b < |queue| ==> queue[a].remote != queue[b].remote
  }

  ghost predicate DistinctHandles(handles: seq<Handle>) {
    forall i, j :: 0 <= i < j < |handles| && Staged(handles[i]) && Staged(handles[j]) ==>
      handles[i].request.remote != handles[j].request.remote
  }

  ghost predicate DistinctSlots(slots: Entries) {
    && (forall i, j :: 0 <= i < j < |slots| && slots[i].Some? && slots[j].Some? && slots[i].value.remote.Some? ==>
          slots[i].value.remote != slots[j].value.remote)
    && (forall i :: 0 <= i < |slots| && slots[i].Some? && slots[i].value.state == Opening ==>
          slots[i].value.remote.None?)
  }

  ghost predicate QueuedApart(queue: seq<Request>, handles: seq<Handle>) {
    forall a, i :: 0 <= a < |queue| && 0 <= i < |handles| && Staged(handles[i]) ==>
      queue[a].remote != handles[i].request.remote
  }

  ghost predicate QueuedNoSlot(queue: seq<Request>, slots: Entries) {
    forall a, idx :: 0 <= a < |queue| && 0 <= idx < |slots| ==> !ForRemote(slots[idx], queue[a].remote)
  }

  ghost predicate OwnSlots(handles: seq<Handle>, slots: Entries) {
    forall i, idx :: 0 <= i < |handles| && 0 <= idx < |slots| ==> OwnSlot(handles[i], slots[idx], idx)
  }

  ghost predicate Handles(handles: seq<Handle>, table: Table) {
    forall i :: 0 <= i < |handles| ==> HandleShape(handles[i]) && Holds(handles[i], table)
  }

  ghost predicate Shaped(s: State) {
    && TableOk(s.table) && Handles(s.handles, s.table)
    && DistinctQueue(s.queue) && DistinctHandles(s.handles) && DistinctSlots(s.table.slots)
    && QueuedApart(s.queue, s.handles) && QueuedNoSlot(s.queue, s.table.slots) && OwnSlots(s.handles, s.table.slots)
  }

  /** The device took `remote` back, and nobody put the request back in the queue since. For id 0 see `ZeroInv`. */
  ghost predicate Dead(remote: nat, withdrawn: set<nat>, requeued: set<nat>) {
    remote != 0 && remote in withdrawn && remote !in requeued
  }

  ghost predicate HandleDead(h: Handle, withdrawn: set<nat>, requeued: set<nat>) {
    && (Staged(h) && h.pending && Dead(h.request.remote, withdrawn, requeued) ==> h.cancelled || h.hit)
    && (Staged(h) && h.hit ==> h.request.remote in withdrawn)
  }

  ghost predicate SlotDead(entry: Option<Slot>, withdrawn: set<nat>, requeued: set<nat>) {
    entry.Some? && entry.value.state == Open && entry.value.remote.Some? ==>
      !Dead(entry.value.remote.value, withdrawn, requeued)
  }

  ghost predicate WithdrawnGone(s: State) {
    && (forall a :: 0 <= a < |s.queue| ==> !Dead(s.queue[a].remote, s.withdrawn, s.requeued))
    && (forall i :: 0 <= i < |s.handles| ==> HandleDead(s.handles[i], s.withdrawn, s.requeued))
    && (forall idx :: 0 <= idx < |s.table.slots| ==> SlotDead(s.table.slots[idx], s.withdrawn, s.requeued))
  }

  ghost predicate Inv(s: State) { Shaped(s) && WithdrawnGone(s) }

  // ---- each step keeps them ----

  lemma OpensShaped(s: State, r: Request)
    requires Shaped(s) && Unused(s, r.remote)
    ensures Shaped(DeviceOpens(s, r)) && Shaped(DeviceOpensFull(s, r))
  {
    hide TableOk, DistinctSlots;
  }

  lemma OpensGone(s: State, r: Request)
    requires WithdrawnGone(s) && Unused(s, r.remote)
    ensures WithdrawnGone(DeviceOpens(s, r)) && WithdrawnGone(DeviceOpensFull(s, r))
  {
  }

  /** Closing a slot keeps its id and everybody's claim on it. */
  lemma CloseKeepsSlots(s: State, remote: nat)
    requires Shaped(s)
    ensures var t := CloseRemote(s.table, remote).0;
            && |t.slots| == |s.table.slots| && TableOk(t)
            && DistinctSlots(t.slots) && QueuedNoSlot(s.queue, t.slots) && OwnSlots(s.handles, t.slots)
            && Handles(s.handles, t)
  {
    hide DistinctQueue, DistinctHandles, QueuedApart;
  }

  lemma HitShaped(s: State, idx: nat)
    requires Shaped(s)
    ensures Shaped(s.(handles := Hit(s.handles, idx)))
  {
    hide TableOk, DistinctSlots, QueuedNoSlot, DistinctQueue;
  }

  lemma ClosesShaped(s: State, remote: nat)
    requires Shaped(s)
    ensures Shaped(DeviceCloses(s, remote))
  {
    hide TableOk, Handles, DistinctQueue, DistinctHandles, DistinctSlots, QueuedApart, QueuedNoSlot, OwnSlots, Hit,
         CloseRemote;
    CloseKeepsSlots(s, remote);
    var closed := CloseRemote(s.table, remote);
    if closed.1.Some? { HitShaped(s.(table := closed.0), closed.1.value); }
  }

  /** The CLSE met the one slot with its id: the slot is closed, and the accept that reserved it is hit. */
  lemma ClosedGone(s: State, remote: nat)
    requires Inv(s) && CloseRemote(s.table, remote).1.Some?
    ensures var closed := CloseRemote(s.table, remote);
            WithdrawnGone(s.(table := closed.0, handles := Hit(s.handles, closed.1.value),
                             withdrawn := s.withdrawn + {remote}))
  {
    hide TableOk, DistinctQueue, DistinctHandles, QueuedApart;
    var closed := CloseRemote(s.table, remote);
    var idx := closed.1.value;
    assert ForRemote(s.table.slots[idx], remote);
    forall i | 0 <= i < |s.handles|
      ensures HandleDead(Hit(s.handles, idx)[i], s.withdrawn + {remote}, s.requeued)
    {
      assert OwnSlot(s.handles[i], s.table.slots[idx], idx);
      assert HandleDead(s.handles[i], s.withdrawn, s.requeued);
      assert HandleShape(s.handles[i]) && Holds(s.handles[i], s.table);
    }
  }

  /** No slot had the id: the request leaves the queue, and whoever holds it finds it cancelled. */
  lemma CancelledGone(s: State, remote: nat)
    requires WithdrawnGone(s) && CloseRemote(s.table, remote).1.None?
    ensures WithdrawnGone(s.(queue := Without(s.queue, remote), handles := Cancel(s.handles, remote),
                             withdrawn := s.withdrawn + {remote}))
  {
    var queue := Without(s.queue, remote);
    forall a | 0 <= a < |queue| ensures !Dead(queue[a].remote, s.withdrawn + {remote}, s.requeued) {
      assert queue[a] in queue;
    }
  }

  lemma {:induction false} WithoutDistinct(queue: seq<Request>, remote: nat)
    requires DistinctQueue(queue)
    ensures DistinctQueue(Without(queue, remote))
  {
    if queue != [] {
      WithoutDistinct(queue[1..], remote);
      var rest := Without(queue[1..], remote);
      forall a | 0 <= a < |rest| ensures rest[a].remote != queue[0].remote {
        assert rest[a] in queue[1..];
      }
    }
  }

  lemma CancelledShaped(s: State, remote: nat)
    requires Shaped(s)
    ensures Shaped(s.(queue := Without(s.queue, remote), handles := Cancel(s.handles, remote)))
  {
    hide TableOk, DistinctSlots;
    WithoutDistinct(s.queue, remote);
    var queue := Without(s.queue, remote);
    forall a | 0 <= a < |queue| ensures queue[a] in s.queue { assert queue[a] in queue; }
  }

  lemma WithdrawsKeep(s: State, remote: nat)
    requires Inv(s) && s.withdrawing == Some(remote)
    ensures Inv(Withdraws(s, remote))
  {
    hide TableOk, Handles, DistinctQueue, DistinctHandles, DistinctSlots, QueuedApart, QueuedNoSlot, OwnSlots, Hit,
         Cancel, CloseRemote, HandleDead, SlotDead, Dead;
    var closed := CloseRemote(s.table, remote);
    if closed.1.Some? { ClosesShaped(s, remote); ClosedGone(s, remote); }
    else { CancelledShaped(s, remote); CancelledGone(s, remote); }
  }

  lemma ClosesKeep(s: State, remote: nat)
    requires Inv(s)
    ensures Inv(DeviceCloses(s, remote))
  {
    hide TableOk, Handles, DistinctQueue, DistinctHandles, DistinctSlots, QueuedApart, QueuedNoSlot, OwnSlots, Hit,
         CloseRemote, HandleDead, SlotDead, Dead;
    ClosesShaped(s, remote);
    if CloseRemote(s.table, remote).1.Some? { ClosedGone(s, remote); }
  }

  lemma TakesKeep(s: State)
    requires Inv(s) && s.queue != []
    ensures Inv(Takes(s))
  {
    hide TableOk, DistinctSlots;
  }

  /** A new slot under the next local id, with an id no other slot carries or none yet. */
  lemma AddKeeps(s: State, idx: nat, slot: Slot)
    requires Inv(s) && idx < |s.table.slots| && s.table.slots[idx].None? && s.table.nextLocalId < U32_MAX
    requires slot.local == s.table.nextLocalId && slot.policy == s.table.policy && Sound(slot)
    requires slot.remote.Some? ==>
               && slot.state != Opening
               && (forall j :: 0 <= j < |s.table.slots| ==> !ForRemote(s.table.slots[j], slot.remote.value))
               && !Dead(slot.remote.value, s.withdrawn, s.requeued)
    ensures var t := SetSlot(s.table.(nextLocalId := s.table.nextLocalId + 1), idx, Some(slot));
            && TableOk(t) && DistinctSlots(t.slots) && Handles(s.handles, t)
            && (forall j :: 0 <= j < |t.slots| ==> SlotDead(t.slots[j], s.withdrawn, s.requeued))
  {
    hide DistinctQueue, DistinctHandles, QueuedApart, QueuedNoSlot, OwnSlots, HandleDead;
  }

  /** `accept` reserves a slot for a request that is still wanted. */
  lemma AcceptReserves(s: State, i: nat)
    requires Inv(s) && Possible(s, Accept(i)) && !s.handles[i].cancelled && Allocate(s.table).Some?
    ensures Inv(Accepts(s, i))
  {
    var h := s.handles[i];
    var ch := Allocate(s.table).value.1;
    var slot := AcceptedSlot(ChannelIds(ch.local, h.request.remote), h.request.credit, s.table.policy);
    assert HandleShape(h) && HandleDead(h, s.withdrawn, s.requeued);
    forall j | 0 <= j < |s.table.slots| ensures !ForRemote(s.table.slots[j], h.request.remote) {
      assert OwnSlot(h, s.table.slots[j], j);
    }
    AddKeeps(s, ch.slot, slot);
    ReserveKeeps(s, i, ch, slot);
  }

  lemma ReserveKeeps(s: State, i: nat, ch: ChannelId, slot: Slot)
    requires Inv(s) && i < |s.handles| && s.handles[i].stage == Undecided && ch.slot < |s.table.slots|
    requires slot.remote == Some(s.handles[i].request.remote) && slot.local == ch.local
    requires Handles(s.handles, SetSlot(s.table, ch.slot, Some(slot)))
    ensures var h := s.handles[i].(stage := Answering, reserved := Some(ch));
            var handles := s.handles[i := h];
            var t := SetSlot(s.table, ch.slot, Some(slot));
            && Handles(handles, t) && DistinctHandles(handles) && QueuedApart(s.queue, handles)
            && QueuedNoSlot(s.queue, t.slots) && OwnSlots(handles, t.slots)
            && (forall j :: 0 <= j < |handles| ==> HandleDead(handles[j], s.withdrawn, s.requeued))
  {
    hide TableOk, DistinctSlots, DistinctQueue;
    assert HandleDead(s.handles[i], s.withdrawn, s.requeued);
    assert HandleShape(s.handles[i]);
  }

  lemma AcceptsKeep(s: State, i: nat)
    requires Inv(s) && Possible(s, Accept(i))
    ensures Inv(Accepts(s, i))
  {
    var h := s.handles[i];
    if h.cancelled || Allocate(s.table).None? {
      ChangeKeeps(s, i, if h.cancelled then h.(pending := false, stage := DropSlot) else h.(stage := Answering));
    } else {
      AcceptReserves(s, i);
    }
  }

  /** A handle moves on without changing what it holds, or gives its request up. */
  lemma ChangeKeeps(s: State, i: nat, h: Handle)
    requires Inv(s) && i < |s.handles| && Staged(s.handles[i]) && HandleShape(h) && Staged(h)
    requires h.request == s.handles[i].request && h.hit == s.handles[i].hit
    requires h.pending ==>
               s.handles[i].pending && h.cancelled == s.handles[i].cancelled && h.reserved == s.handles[i].reserved
    requires h.reserved.None? || h.reserved == s.handles[i].reserved
    ensures Inv(Put(s, i, h))
  {
    hide TableOk, DistinctSlots, DistinctQueue, QueuedNoSlot, Get;
    assert HandleDead(s.handles[i], s.withdrawn, s.requeued);
  }

  lemma AnswersKeep(s: State, i: nat, e: Event)
    requires Inv(s) && Possible(s, e) && (e == Reject(i) || e == Sent(i) || e == DeviceGone(i) || e == Abandon(i))
    ensures Inv(After(s, e))
  {
    hide Inv, Handles;
    var h := s.handles[i];
    match e {
      case Reject(_) =>
        ChangeKeeps(s, i, if h.cancelled then h.(pending := false, stage := DropSlot) else h.(stage := Answering));
      case Sent(_) => ChangeKeeps(s, i, h.(pending := false, reserved := None, stage := DropSlot));
      case DeviceGone(_) => ChangeKeeps(s, i, h.(pending := false, stage := DropSlot));
      case Abandon(_) => ChangeKeeps(s, i, h.(stage := DropSlot));
    }
  }

  /** A freed slot leaves the rest of the table as it was. */
  lemma FreeKeeps(s: State, idx: nat)
    requires Inv(s) && idx < |s.table.slots| && !Reserved(s, idx)
    ensures Inv(SlotFreed(s, idx))
  {
    hide DistinctQueue, DistinctHandles, QueuedApart, HandleDead;
    forall i | 0 <= i < |s.handles|
      ensures HandleShape(s.handles[i]) && Holds(s.handles[i], SlotFreed(s, idx).table)
    {
      assert HandleShape(s.handles[i]) && Holds(s.handles[i], s.table);
    }
  }

  lemma FreesKeep(s: State, i: nat)
    requires Inv(s) && Possible(s, FreeReserved(i))
    ensures Inv(DropsSlot(s, i))
  {
    var h := s.handles[i];
    assert HandleShape(h) && Holds(h, s.table);
    var freed := h.(stage := DropRequest, reserved := None);
    if h.reserved.None? {
      ChangeKeeps(s, i, freed);
    } else {
      FreesSlot(s, i);
    }
  }

  lemma FreesSlot(s: State, i: nat)
    requires Inv(s) && Possible(s, FreeReserved(i)) && s.handles[i].reserved.Some?
    ensures Inv(DropsSlot(s, i))
  {
    var h := s.handles[i];
    var idx := h.reserved.value.slot;
    var freed := h.(stage := DropRequest, reserved := None);
    assert HandleShape(h) && Holds(h, s.table);
    var t := SetSlot(s.table, idx, None);
    assert DropsSlot(s, i) == s.(handles := s.handles[i := freed], table := t);
    FreedTable(s, i, idx);
    FreedHandles(s, i, idx);
  }

  lemma FreedTable(s: State, i: nat, idx: nat)
    requires Inv(s) && idx < |s.table.slots|
    ensures var t := SetSlot(s.table, idx, None);
            && TableOk(t) && DistinctSlots(t.slots) && QueuedNoSlot(s.queue, t.slots)
            && (forall j :: 0 <= j < |t.slots| ==> SlotDead(t.slots[j], s.withdrawn, s.requeued))
  {
    hide Handles, DistinctQueue, DistinctHandles, QueuedApart, OwnSlots, HandleDead;
  }

  lemma FreedHandles(s: State, i: nat, idx: nat)
    requires Inv(s) && Possible(s, FreeReserved(i)) && s.handles[i].reserved.Some?
             && s.handles[i].reserved.value.slot == idx
    requires Get(s.table, s.handles[i].reserved.value).Some?
             && Get(s.table, s.handles[i].reserved.value).value.remote == Some(s.handles[i].request.remote)
    ensures var handles := s.handles[i := s.handles[i].(stage := DropRequest, reserved := None)];
            var t := SetSlot(s.table, idx, None);
            && Handles(handles, t) && DistinctHandles(handles) && QueuedApart(s.queue, handles)
            && OwnSlots(handles, t.slots)
            && (forall j :: 0 <= j < |handles| ==> HandleDead(handles[j], s.withdrawn, s.requeued))
  {
    hide TableOk, DistinctQueue, QueuedNoSlot, SlotDead;
    var handles := s.handles[i := s.handles[i].(stage := DropRequest, reserved := None)];
    var t := SetSlot(s.table, idx, None);
    forall j | 0 <= j < |handles| ensures HandleShape(handles[j]) && Holds(handles[j], t) {
      assert HandleShape(s.handles[j]) && Holds(s.handles[j], s.table);
    }
    forall j, k | 0 <= j < |handles| && 0 <= k < |t.slots| ensures OwnSlot(handles[j], t.slots[k], k) {
      assert OwnSlot(s.handles[j], s.table.slots[k], k);
    }
    assert HandleDead(s.handles[i], s.withdrawn, s.requeued);
  }

  lemma UnstagesKeep(s: State, i: nat)
    requires Inv(s) && Possible(s, Unstage(i))
    ensures Inv(DropsRequest(s, i))
  {
    hide TableOk, DistinctSlots;
    var h := s.handles[i];
    var s1 := DropsRequest(s, i);
    assert HandleShape(h) && HandleDead(h, s.withdrawn, s.requeued);
    if h.pending {
      forall idx | 0 <= idx < |s.table.slots| ensures !ForRemote(s.table.slots[idx], h.request.remote) {
        assert OwnSlot(h, s.table.slots[idx], idx);
      }
    }
  }

  lemma WeOpenKeeps(s: State)
    requires Inv(s) && s.table.nextLocalId < U32_MAX
    ensures Inv(WeOpen(s))
  {
    hide DistinctQueue, DistinctHandles, DistinctSlots, QueuedApart, HandleDead, Handles, TableOk;
    if Allocate(s.table).Some? {
      var ch := Allocate(s.table).value.1;
      AddKeeps(s, ch.slot, OpeningSlot(ch.local, s.table.policy));
    }
  }

  lemma ReadiesKeep(s: State, idx: nat, remote: nat)
    requires Inv(s) && Possible(s, DeviceReady(idx, remote))
    ensures Inv(DeviceReadies(s, idx, remote))
  {
    hide DistinctQueue, DistinctHandles, QueuedApart;
    var s1 := DeviceReadies(s, idx, remote);
  }

  lemma SlotClosesKeep(s: State, idx: nat)
    requires Inv(s) && idx < |s.table.slots| && s.table.slots[idx].Some?
    ensures Inv(SlotCloses(s, idx))
  {
    hide DistinctQueue, DistinctHandles, QueuedApart, HandleDead;
  }

  lemma StepKeeps(s: State, e: Event)
    requires Inv(s) && Possible(s, e)
    ensures Inv(After(s, e))
  {
    hide Inv;
    match e {
      case DeviceOpen(r) => OpensKeep(s, r);
      case DeviceOpenFull(r) => OpensKeep(s, r);
      case DeviceClose(remote) => ClosesKeep(s, remote);
      case WithdrawOpen => WithdrawsKeep(s, s.withdrawing.value);
      case Take => TakesKeep(s);
      case Accept(i) => AcceptsKeep(s, i);
      case Reject(i) => AnswersKeep(s, i, e);
      case Sent(i) => AnswersKeep(s, i, e);
      case DeviceGone(i) => AnswersKeep(s, i, e);
      case Abandon(i) => AnswersKeep(s, i, e);
      case FreeReserved(i) => FreesKeep(s, i);
      case Unstage(i) => UnstagesKeep(s, i);
      case WeOpened => WeOpenKeeps(s);
      case DeviceReady(idx, remote) => ReadiesKeep(s, idx, remote);
      case SlotClose(idx) => SlotClosesKeep(s, idx);
      case SlotFree(idx) => FreeKeeps(s, idx);
    }
  }

  lemma OpensKeep(s: State, r: Request)
    requires Inv(s) && Unused(s, r.remote)
    ensures Inv(DeviceOpens(s, r)) && Inv(DeviceOpensFull(s, r))
  {
    OpensShaped(s, r);
    OpensGone(s, r);
  }

  // ---- runs ----

  /**
   What a connection is split with: its channels and the requests nobody took yet,
   each remote id carried by one of them.
   */
  ghost predicate Startable(table: Table, queue: seq<Request>) {
    TableOk(table) && DistinctQueue(queue) && DistinctSlots(table.slots) && QueuedNoSlot(queue, table.slots)
  }

  function Start(table: Table, queue: seq<Request>): State { State(table, queue, [], None, {}, {}) }

  ghost function Run(s: State, events: seq<Event>): Option<State> {
    if events == [] then Some(s)
    else
      var before := Run(s, events[..|events| - 1]);
      var e := events[|events| - 1];
      if before.None? || !Possible(before.value, e) then None else Some(After(before.value, e))
  }

  /** No CLSE closes a slot by remote id 0, but its request leaves the queue and whoever holds it is told. */
  ghost predicate ZeroInv(s: State) {
    && 0 !in s.requeued
    && (0 in s.withdrawn ==>
          && (forall a :: 0 <= a < |s.queue| ==> s.queue[a].remote != 0)
          && (forall i :: 0 <= i < |s.handles| && Staged(s.handles[i]) && s.handles[i].request.remote == 0 ==>
                s.handles[i].cancelled))
  }

  lemma WithoutNone(queue: seq<Request>, remote: nat)
    ensures forall a :: 0 <= a < |Without(queue, remote)| ==> Without(queue, remote)[a].remote != remote
  {
    forall a | 0 <= a < |Without(queue, remote)| ensures Without(queue, remote)[a].remote != remote {
      assert Without(queue, remote)[a] in Without(queue, remote);
    }
  }

  lemma ZeroKeeps(s: State, e: Event)
    requires ZeroInv(s) && Possible(s, e)
    ensures ZeroInv(After(s, e))
  {
    hide TableOk, Allocate, Unused, Free, Without;
    if e.WithdrawOpen? {
      WithoutNone(s.queue, s.withdrawing.value);
      if CloseRemote(s.table, s.withdrawing.value).1.Some? { assert s.withdrawing.value != 0; }
    }
  }

  lemma {:induction false} RunKeeps(table: Table, queue: seq<Request>, events: seq<Event>)
    requires Startable(table, queue) && Run(Start(table, queue), events).Some?
    ensures Inv(Run(Start(table, queue), events).value) && ZeroInv(Run(Start(table, queue), events).value)
  {
    hide Possible, After;
    if events != [] {
      hide Inv, ZeroInv;
      RunKeeps(table, queue, events[..|events| - 1]);
      StepKeeps(Run(Start(table, queue), events[..|events| - 1]).value, events[|events| - 1]);
      ZeroKeeps(Run(Start(table, queue), events[..|events| - 1]).value, events[|events| - 1]);
    }
  }

  /** An accept whose reserved slot the device's CLSE closed is dropped with its request still undecided. */
  ghost predicate Revives(s: State, e: Event)
    requires Possible(s, e)
  {
    e.Unstage? && var h := s.handles[e.i]; h.pending && h.hit && !h.cancelled
  }

  ghost predicate OpenUnder(s: State, remote: nat) {
    exists idx ::
      0 <= idx < |s.table.slots| && ForRemote(s.table.slots[idx], remote) && s.table.slots[idx].value.state == Open
  }

  /** The CLSE for an OPEN with id 0 is handled while a slot accepted for it is open: nothing closes that slot. */
  ghost predicate LeavesOpen(s: State, e: Event) {
    e.WithdrawOpen? && s.withdrawing == Some(0) && OpenUnder(s, 0)
  }

  /** A run in which neither ever happens. */
  ghost predicate Steady(s: State, events: seq<Event>)
    requires Run(s, events).Some?
  {
    events == [] ||
    (var front := events[..|events| - 1];
     Steady(s, front) && !Revives(Run(s, front).value, events[|events| - 1])
     && !LeavesOpen(Run(s, front).value, events[|events| - 1]))
  }

  ghost predicate SteadyInv(s: State) { s.requeued == {} && (0 in s.withdrawn ==> !OpenUnder(s, 0)) }

  lemma SteadyStep(s: State, e: Event)
    requires Inv(s) && ZeroInv(s) && SteadyInv(s) && Possible(s, e) && !Revives(s, e) && !LeavesOpen(s, e)
    ensures SteadyInv(After(s, e))
  {
    hide Inv, ZeroInv, OpenUnder;
    NoneRequeued(s, e);
    NoZeroOpens(s, e);
  }

  lemma NoneRequeued(s: State, e: Event)
    requires Inv(s) && ZeroInv(s) && s.requeued == {} && Possible(s, e) && !Revives(s, e)
    ensures After(s, e).requeued == {}
  {
    hide TableOk, DistinctQueue, DistinctHandles, DistinctSlots, QueuedApart, QueuedNoSlot, OwnSlots, SlotDead,
         CloseRemote, Allocate, Unused, Without;
    if e.Unstage? {
      var h := s.handles[e.i];
      assert HandleShape(h) && HandleDead(h, s.withdrawn, s.requeued);
    }
  }

  lemma NoZeroOpens(s: State, e: Event)
    requires ZeroInv(s) && (0 in s.withdrawn ==> !OpenUnder(s, 0)) && Possible(s, e) && !LeavesOpen(s, e)
    ensures 0 in After(s, e).withdrawn ==> !OpenUnder(After(s, e), 0)
  {
    hide TableOk, Unused, Without;
    if e.Accept? { assert s.handles[e.i].request.remote == 0 && 0 in s.withdrawn ==> s.handles[e.i].cancelled; }
  }

  lemma {:induction false} SteadyRun(table: Table, queue: seq<Request>, events: seq<Event>)
    requires Startable(table, queue) && Run(Start(table, queue), events).Some? && Steady(Start(table, queue), events)
    ensures SteadyInv(Run(Start(table, queue), events).value)
  {
    hide Possible, After, Inv, ZeroInv, LeavesOpen;
    if events != [] {
      var front := events[..|events| - 1];
      SteadyRun(table, queue, front);
      RunKeeps(table, queue, front);
      hide SteadyInv;
      SteadyStep(Run(Start(table, queue), front).value, events[|events| - 1]);
    }
  }

  /** No open channel carries the id, the request is in no queue, and nobody who holds it can still accept it. */
  ghost predicate GoneFor(s: State, remote: nat) {
    && (forall idx :: 0 <= idx < |s.table.slots| && ForRemote(s.table.slots[idx], remote) ==>
          s.table.slots[idx].value.state != Open)
    && (forall q <- s.queue :: q.remote != remote)
    && (forall i :: 0 <= i < |s.handles| && s.handles[i].stage == Undecided && s.handles[i].request.remote == remote ==>
          s.handles[i].cancelled)
  }

  ghost predicate AllGone(s: State) { forall remote <- s.withdrawn :: GoneFor(s, remote) }

  /** Accept against withdrawal: once the device's CLSE for an OPEN is handled, its request is gone. */
  lemma WithdrawnIsGone(table: Table, queue: seq<Request>, events: seq<Event>, remote: nat)
    requires Startable(table, queue) && Run(Start(table, queue), events).Some? && Steady(Start(table, queue), events)
    requires remote in Run(Start(table, queue), events).value.withdrawn
    ensures GoneFor(Run(Start(table, queue), events).value, remote)
  {
    hide Run, Steady;
    RunKeeps(table, queue, events);
    SteadyRun(table, queue, events);
    var s := Run(Start(table, queue), events).value;
    forall i | 0 <= i < |s.handles| && s.handles[i].stage == Undecided && s.handles[i].request.remote == remote
      ensures s.handles[i].cancelled
    {
      assert HandleShape(s.handles[i]) && HandleDead(s.handles[i], s.withdrawn, s.requeued);
    }
    forall idx | 0 <= idx < |s.table.slots| && ForRemote(s.table.slots[idx], remote)
      ensures s.table.slots[idx].value.state != Open
    {
      assert SlotDead(s.table.slots[idx], s.withdrawn, s.requeued);
    }
    forall q | q in s.queue ensures q.remote != remote {
      var a :| 0 <= a < |s.queue| && s.queue[a] == q;
    }
  }

  /**
   When a withdrawn request does come back: exactly when an accept whose
   reserved slot the CLSE closed is dropped before its answer is out.
   */
  lemma ComesBackExactly(s: State, i: nat)
    requires Inv(s) && ZeroInv(s) && Possible(s, Unstage(i)) && s.handles[i].request.remote !in s.requeued
    ensures var h := s.handles[i];
            var s1 := DropsRequest(s, i);
            (h.request.remote in s.withdrawn && h.request in s1.queue) <==> (h.pending && h.hit && !h.cancelled)
  {
    var h := s.handles[i];
    assert HandleDead(h, s.withdrawn, s.requeued);
    if h.request in s.queue { assert false; }
  }

  /** Withdrawn requests are gone in every state the run passes through. */
  ghost predicate AlwaysGone(s: State, events: seq<Event>)
    requires Run(s, events).Some?
  {
    AllGone(Run(s, events).value) && (events == [] || AlwaysGone(s, events[..|events| - 1]))
  }

  lemma QueuedIsNotGone(s: State, q: Request)
    requires q in s.queue
    ensures !GoneFor(s, q.remote)
  {
  }

  lemma RevivedIsBack(s: State, e: Event)
    requires Inv(s) && ZeroInv(s) && SteadyInv(s) && Possible(s, e) && Revives(s, e)
    ensures !AllGone(After(s, e))
  {
    hide Inv, ZeroInv, GoneFor;
    var h := s.handles[e.i];
    ComesBackExactly(s, e.i);
    QueuedIsNotGone(After(s, e), h.request);
  }

  lemma LeftOpenIsThere(s: State, e: Event)
    requires Possible(s, e) && LeavesOpen(s, e)
    ensures !AllGone(After(s, e))
  {
    hide Without;
    assert 0 in After(s, e).withdrawn && !GoneFor(After(s, e), 0);
  }

  /**
   Exactly when withdrawn requests stay gone through a whole run: no accept the
   CLSE hit is dropped undecided, and none had opened a slot for id 0 when the
   CLSE for that id was handled.
   */
  lemma {:induction false} GoneUnlessRevived(table: Table, queue: seq<Request>, events: seq<Event>)
    requires Startable(table, queue) && Run(Start(table, queue), events).Some?
    ensures AlwaysGone(Start(table, queue), events) <==> Steady(Start(table, queue), events)
  {
    hide Inv, ZeroInv, SteadyInv, Possible, After, Revives, LeavesOpen, GoneFor;
    var end := Run(Start(table, queue), events).value;
    if events != [] {
      var front := events[..|events| - 1];
      var s := Run(Start(table, queue), front).value;
      GoneUnlessRevived(table, queue, front);
      RunKeeps(table, queue, front);
      if Steady(Start(table, queue), front) {
        SteadyRun(table, queue, front);
        if Revives(s, events[|events| - 1]) { RevivedIsBack(s, events[|events| - 1]); }
        if LeavesOpen(s, events[|events| - 1]) { LeftOpenIsThere(s, events[|events| - 1]); }
      }
    }
    if Steady(Start(table, queue), events) {
      forall remote <- end.withdrawn ensures GoneFor(end, remote) { WithdrawnIsGone(table, queue, events, remote); }
    }
  }

  // ---- a run in which it does ----

  lemma {:induction false} RunJoins(s: State, a: seq<Event>, b: seq<Event>)
    requires Run(s, a).Some?
    ensures Run(s, a + b) == Run(Run(s, a).value, b)
  {
    hide Possible, After;
    if b == [] {
      assert a + b == a;
    } else {
      var n := |b| - 1;
      RunJoins(s, a, b[..n]);
      assert (a + b)[..|a| + n] == a + b[..n];
    }
  }

  /** One event. */
  lemma RunOne(s: State, e: Event)
    requires Possible(s, e)
    ensures Run(s, [e]) == Some(After(s, e))
  {
    assert [e][..0] == [];
  }

  /** That of the smallest configuration, without delayed ack. */
  const POLICY := RxPolicy(Classic, 1024, 1)

  const ASKED := Request(7, 0)

  function OneSlot(entry: Option<Slot>, next: nat): Table { Table([entry], next, POLICY) }

  function Opened(local: nat): Slot { AcceptedSlot(ChannelIds(local, 7), 0, POLICY) }

  /** One free slot, and nobody has asked for anything. */
  const EMPTY_START := Start(OneSlot(None, 1), [])

  /** An accept of request 7 has reserved the only slot. */
  const RESERVED :=
    State(OneSlot(Some(Opened(1)), 2), [], [Handle(Answering, ASKED, true, false, Some(ChannelId(0, 1)), false)],
          None, {}, {})

  /** Request 7 was withdrawn, and is back in the queue. */
  const BACK := State(OneSlot(None, 2), [ASKED], [Handle(Over, ASKED, true, false, None, true)], None, {7}, {7})

  lemma RunReserves()
    ensures Run(EMPTY_START, [DeviceOpen(ASKED)] + [Take] + [Accept(0)]) == Some(RESERVED)
  {
    var s0 := EMPTY_START;
    var s1 := s0.(queue := [ASKED]);
    var s2 := s0.(handles := [NewHandle(ASKED)]);
    assert After(s0, DeviceOpen(ASKED)) == s1;
    assert After(s1, Take) == s2;
    assert After(s2, Accept(0)) == RESERVED;
    hide Run, After, Possible;
    RunOne(s0, DeviceOpen(ASKED));
    RunOne(s1, Take);
    RunOne(s2, Accept(0));
    RunJoins(s0, [DeviceOpen(ASKED)], [Take]);
    RunJoins(s0, [DeviceOpen(ASKED)] + [Take], [Accept(0)]);
  }

  /** The CLSE closes the reserved slot, and the accept is dropped. */
  lemma RunDrops()
    ensures Run(RESERVED, [DeviceClose(7)] + [Abandon(0)] + [FreeReserved(0)] + [Unstage(0)]) == Some(BACK)
  {
    var h := RESERVED.handles[0].(hit := true);
    var s1 := RESERVED.(table := OneSlot(Some(ApplyClose(Opened(1))), 2), handles := [h], withdrawn := {7});
    var s2 := s1.(handles := [h.(stage := DropSlot)]);
    var s3 := s1.(table := OneSlot(None, 2), handles := [h.(stage := DropRequest, reserved := None)]);
    assert ForRemote(RESERVED.table.slots[0], 7);
    assert After(RESERVED, DeviceClose(7)) == s1;
    assert After(s1, Abandon(0)) == s2;
    assert After(s2, FreeReserved(0)) == s3;
    assert After(s3, Unstage(0)) == BACK;
    hide Run, After, Possible;
    RunOne(RESERVED, DeviceClose(7));
    RunOne(s1, Abandon(0));
    RunOne(s2, FreeReserved(0));
    RunOne(s3, Unstage(0));
    RunJoins(RESERVED, [DeviceClose(7)], [Abandon(0)]);
    RunJoins(RESERVED, [DeviceClose(7)] + [Abandon(0)], [FreeReserved(0)]);
    RunJoins(RESERVED, [DeviceClose(7)] + [Abandon(0)] + [FreeReserved(0)], [Unstage(0)]);
  }

  /** The next accept takes the request and answers it. */
  lemma RunAnswers() returns (s: State)
    ensures Run(BACK, [Take] + [Accept(1)] + [Sent(1)] + [FreeReserved(1)] + [Unstage(1)]) == Some(s)
    ensures s.table == OneSlot(Some(Opened(2)), 3) && s.withdrawn == {7} && |s.handles| == 2
    ensures s.handles[0].stage == Over && s.handles[1].stage == Over && s.withdrawing.None?
  {
    var h := BACK.handles[0];
    var s1 := BACK.(queue := [], handles := [h, NewHandle(ASKED)]);
    var g := Handle(Answering, ASKED, true, false, Some(ChannelId(0, 2)), false);
    var s2 := s1.(table := OneSlot(Some(Opened(2)), 3), handles := [h, g]);
    var g3 := g.(pending := false, reserved := None, stage := DropSlot);
    var s3 := s2.(handles := [h, g3]);
    var s4 := s2.(handles := [h, g3.(stage := DropRequest)]);
    s := s2.(handles := [h, g3.(stage := Over)]);
    assert After(BACK, Take) == s1;
    assert After(s1, Accept(1)) == s2;
    assert After(s2, Sent(1)) == s3;
    assert After(s3, FreeReserved(1)) == s4;
    assert After(s4, Unstage(1)) == s;
    hide Run, After, Possible;
    RunOne(BACK, Take);
    RunOne(s1, Accept(1));
    RunOne(s2, Sent(1));
    RunOne(s3, FreeReserved(1));
    RunOne(s4, Unstage(1));
    RunJoins(BACK, [Take], [Accept(1)]);
    RunJoins(BACK, [Take] + [Accept(1)], [Sent(1)]);
    RunJoins(BACK, [Take] + [Accept(1)] + [Sent(1)], [FreeReserved(1)]);
    RunJoins(BACK, [Take] + [Accept(1)] + [Sent(1)] + [FreeReserved(1)], [Unstage(1)]);
  }

  /**
   Without the first proviso the law fails: here the CLSE and both accepts are over,
   and an open channel carries the id the device withdrew.
   */
  lemma AbandonedAcceptRevives() returns (events: seq<Event>)
    ensures ReceiveFlow.ValidConfig(ReceiveFlow.SMALLEST)
    ensures EMPTY_START.table.policy == ReceiveFlow.PolicyOf(ReceiveFlow.SMALLEST, Classic)
    ensures Run(EMPTY_START, events).Some?
    ensures var s := Run(EMPTY_START, events).value;
            && 7 in s.withdrawn && s.withdrawing.None? && (forall h <- s.handles :: h.stage == Over)
            && |s.table.slots| == 1 && ForRemote(s.table.slots[0], 7) && s.table.slots[0].value.state == Open
  {
    hide Run;
    var a := [DeviceOpen(ASKED)] + [Take] + [Accept(0)];
    var b := [DeviceClose(7)] + [Abandon(0)] + [FreeReserved(0)] + [Unstage(0)];
    var c := [Take] + [Accept(1)] + [Sent(1)] + [FreeReserved(1)] + [Unstage(1)];
    RunReserves();
    RunDrops();
    var s := RunAnswers();
    RunJoins(EMPTY_START, a, b);
    RunJoins(EMPTY_START, a + b, c);
    events := a + b + c;
  }

  const ZERO := Request(0, 0)

  const ZERO_OPEN := OneSlot(Some(AcceptedSlot(ChannelIds(1, 0), 0, POLICY)), 2)

  /** The device opened a channel under id 0, and we accepted it. */
  const ACCEPTED_ZERO := State(ZERO_OPEN, [], [NewHandle(ZERO).(stage := DropSlot, pending := false)], None, {}, {})

  /** The accept has reserved the only slot for id 0. */
  const RESERVED_ZERO :=
    State(ZERO_OPEN, [], [NewHandle(ZERO).(stage := Answering, reserved := Some(ChannelId(0, 1)))], None, {}, {})

  lemma AsksForZero()
    ensures var s := EMPTY_START;
            Possible(s, DeviceOpen(ZERO)) && After(s, DeviceOpen(ZERO)) == s.(queue := [ZERO])
    ensures var s := EMPTY_START.(queue := [ZERO]);
            Possible(s, Take) && After(s, Take) == EMPTY_START.(handles := [NewHandle(ZERO)])
  {
  }

  lemma AcceptsZero()
    ensures var s := EMPTY_START.(handles := [NewHandle(ZERO)]);
            Possible(s, Accept(0)) && After(s, Accept(0)) == RESERVED_ZERO
    ensures Possible(RESERVED_ZERO, Sent(0)) && After(RESERVED_ZERO, Sent(0)) == ACCEPTED_ZERO
  {
  }

  lemma RunAcceptsZero()
    ensures Run(EMPTY_START, [DeviceOpen(ZERO)] + [Take] + [Accept(0)] + [Sent(0)]) == Some(ACCEPTED_ZERO)
  {
    var s0 := EMPTY_START;
    AsksForZero();
    AcceptsZero();
    hide Run, After, Possible;
    RunOne(s0, DeviceOpen(ZERO));
    RunOne(s0.(queue := [ZERO]), Take);
    RunOne(s0.(handles := [NewHandle(ZERO)]), Accept(0));
    RunOne(RESERVED_ZERO, Sent(0));
    RunJoins(s0, [DeviceOpen(ZERO)], [Take]);
    RunJoins(s0, [DeviceOpen(ZERO)] + [Take], [Accept(0)]);
    RunJoins(s0, [DeviceOpen(ZERO)] + [Take] + [Accept(0)], [Sent(0)]);
  }

  lemma RunClosesZero() returns (s: State)
    ensures Run(ACCEPTED_ZERO, [DeviceClose(0)] + [WithdrawOpen]) == Some(s)
    ensures s.table == ZERO_OPEN && s.withdrawn == {0} && s.withdrawing.None?
  {
    var s1 := ACCEPTED_ZERO.(withdrawing := Some(0));
    s := ACCEPTED_ZERO.(withdrawn := {0}, handles := [ACCEPTED_ZERO.handles[0].(cancelled := true)]);
    assert After(ACCEPTED_ZERO, DeviceClose(0)) == s1;
    assert After(s1, WithdrawOpen) == s;
    hide Run, After, Possible;
    RunOne(ACCEPTED_ZERO, DeviceClose(0));
    RunOne(s1, WithdrawOpen);
    RunJoins(ACCEPTED_ZERO, [DeviceClose(0)], [WithdrawOpen]);
  }

  /**
   Nor does it hold of id 0: the device opens a channel under it, we accept, the
   device closes it without naming our id, and the channel stays open.
   */
  lemma ZeroStaysOpen() returns (events: seq<Event>)
    ensures ReceiveFlow.ValidConfig(ReceiveFlow.SMALLEST)
    ensures EMPTY_START.table.policy == ReceiveFlow.PolicyOf(ReceiveFlow.SMALLEST, Classic)
    ensures Run(EMPTY_START, events).Some?
    ensures var s := Run(EMPTY_START, events).value;
            0 in s.withdrawn && s.withdrawing.None? && OpenUnder(s, 0) && !GoneFor(s, 0)
  {
    hide Run;
    var a := [DeviceOpen(ZERO)] + [Take] + [Accept(0)] + [Sent(0)];
    var b := [DeviceClose(0)] + [WithdrawOpen];
    RunAcceptsZero();
    var s := RunClosesZero();
    RunJoins(EMPTY_START, a, b);
    assert ForRemote(s.table.slots[0], 0);
    events := a + b;
  }
}
