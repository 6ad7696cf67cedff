/**
 Channels the device opens (libadb/src/split/accept.rs, withdraw_open in
 libadb/src/split/shared.rs, libadb/src/base/incoming.rs): requests wait in a
 queue, are taken by a `SplitIncoming` and accepted or refused, while the device
 may withdraw a request at any time with a CLSE for its OPEN.

 One step is one lock hold. The `Reader` handles a CLSE in two of them: the
 table first, then table, staged requests and queue together.
 */
module AcceptMachine {
  import opened Prelude
  import opened Slots
  import opened ChannelTables

  datatype Request = Request(remote: nat, credit: nat)

  /** `Undecided`, waiting for the write half with an answer, the two locks of `drop`, and over. */
  datatype Stage = Undecided | Answering | DropSlot | DropRequest | Over

  /**
   A `SplitIncoming`. `pending`: the request is still its own; `hit` (history):
   the device's CLSE closed the slot it had reserved.
   */
  datatype Handle = Handle(
    stage: Stage,
    request: Request,
    pending: bool,
    cancelled: bool,
    reserved: Option<ChannelId>,
    hit: bool)

  /** History: requests whose CLSE was handled, and those put back in the queue after that. */
  datatype State = State(
    table: Table,
    queue: seq<Request>,
    handles: seq<Handle>,
    withdrawing: Option<nat>,
    withdrawn: set<nat>,
    requeued: set<nat>)

  predicate Staged(h: Handle) { h.stage != Over }

  // ---- the Reader ----

  predicate Carries(entry: Option<Slot>, remote: nat) { ForRemote(entry, remote) }

  /** The device may use an id that nothing on this connection carries. */
  ghost predicate Unused(s: State, remote: nat) {
    && (forall q <- s.queue :: q.remote != remote)
    && (forall i :: 0 <= i < |s.handles| && Staged(s.handles[i]) ==> s.handles[i].request.remote != remote)
    && (forall i :: 0 <= i < |s.table.slots| ==> !Carries(s.table.slots[i], remote))
    && s.withdrawing != Some(remote)
  }

  function Fresh(s: State, remote: nat): State {
    s.(withdrawn := s.withdrawn - {remote}, requeued := s.requeued - {remote})
  }

  /** OPEN: the request joins the queue. */
  function DeviceOpens(s: State, r: Request): State {
    Fresh(s, r.remote).(queue := s.queue + [r])
  }

  function NewHandle(r: Request): Handle { Handle(Undecided, r, true, false, None, false) }

  /** OPEN with the queue full: the request is taken at once, to be refused. */
  function DeviceOpensFull(s: State, r: Request): State {
    Fresh(s, r.remote).(handles := s.handles + [NewHandle(r)])
  }

  /** Whoever reserved the slot that was just closed. */
  function Hit(handles: seq<Handle>, idx: nat): seq<Handle> {
    seq(|handles|, i requires 0 <= i < |handles| =>
      if Staged(handles[i]) && handles[i].reserved.Some? && handles[i].reserved.value.slot == idx
      then handles[i].(hit := true) else handles[i])
  }

  function Cancel(handles: seq<Handle>, remote: nat): seq<Handle> {
    seq(|handles|, i requires 0 <= i < |handles| =>
      if Staged(handles[i]) && handles[i].request.remote == remote then handles[i].(cancelled := true) else handles[i])
  }

  /** `IncomingQueue::withdraw`. */
  function Without(queue: seq<Request>, remote: nat): (r: seq<Request>)
    ensures forall q :: q in r <==> q in queue && q.remote != remote
  {
    if queue == [] then []
    else if queue[0].remote == remote then Without(queue[1..], remote)
    else [queue[0]] + Without(queue[1..], remote)
  }

  /** Those that stay keep their order. */
  lemma {:induction false} WithoutJoins(a: seq<Request>, b: seq<Request>, remote: nat)
    ensures Without(a + b, remote) == Without(a, remote) + Without(b, remote)
  {
    if a == [] {
      assert a + b == b;
    } else {
      WithoutJoins(a[1..], b, remote);
      assert (a + b)[1..] == a[1..] + b;
      assert (a + b)[0] == a[0];
      var rest := Without(a[1..], remote);
      if a[0].remote != remote { assert [a[0]] + (rest + Without(b, remote)) == ([a[0]] + rest) + Without(b, remote); }
    }
  }

  /** CLSE for an OPEN, first lock: a slot that carries the id is closed; otherwise the request is withdrawn next. */
  function DeviceCloses(s: State, remote: nat): State {
    var closed := CloseRemote(s.table, remote);
    if closed.1.Some? then
      s.(table := closed.0, handles := Hit(s.handles, closed.1.value), withdrawn := s.withdrawn + {remote})
    else s.(withdrawing := Some(remote))
  }

  /** Second lock, `withdraw_open`. */
  function Withdraws(s: State, remote: nat): State {
    var closed := CloseRemote(s.table, remote);
    var done := s.(withdrawing := None, withdrawn := s.withdrawn + {remote});
    if closed.1.Some? then done.(table := closed.0, handles := Hit(s.handles, closed.1.value))
    else done.(queue := Without(s.queue, remote), handles := Cancel(s.handles, remote))
  }

  // ---- callers ----

  function Put(s: State, i: nat, h: Handle): State
    requires i < |s.handles|
  {
    s.(handles := s.handles[i := h])
  }

  /** `take_incoming`. */
  function Takes(s: State): State
    requires s.queue != []
  {
    s.(queue := s.queue[1..], handles := s.handles + [NewHandle(s.queue[0])])
  }

  /** `accept`, its first lock: cancelled, a slot reserved, or none free and a refusal to send. */
  function Accepts(s: State, i: nat): State
    requires i < |s.handles|
  {
    var h := s.handles[i];
    if h.cancelled then Put(s, i, h.(pending := false, stage := DropSlot))
    else
      match Allocate(s.table)
      case None => Put(s, i, h.(stage := Answering))
      case Some((t, ch)) =>
        Put(s, i, h.(stage := Answering, reserved := Some(ch)))
          .(table := SetSlot(t, ch.slot,
                             Some(AcceptedSlot(ChannelIds(ch.local, h.request.remote), h.request.credit, t.policy))))
  }

  /** `reject`. */
  function Rejects(s: State, i: nat): State
    requires i < |s.handles|
  {
    var h := s.handles[i];
    Put(s, i, if h.cancelled then h.(pending := false, stage := DropSlot) else h.(stage := Answering))
  }

  /** The answer is out: the channel, if one was reserved, is the caller's now. */
  function AnswerSent(s: State, i: nat): State
    requires i < |s.handles|
  {
    Put(s, i, s.handles[i].(pending := false, reserved := None, stage := DropSlot))
  }

  /** The device is gone: the request is consumed, the slot is not kept. */
  function AnswerGone(s: State, i: nat): State
    requires i < |s.handles|
  {
    Put(s, i, s.handles[i].(pending := false, stage := DropSlot))
  }

  /** The call is dropped, undecided or with its answer not sent, or sending it failed. */
  function Abandons(s: State, i: nat): State
    requires i < |s.handles|
  {
    Put(s, i, s.handles[i].(stage := DropSlot))
  }

  /** `drop`, first lock. */
  function DropsSlot(s: State, i: nat): State
    requires i < |s.handles|
  {
    var h := s.handles[i];
    Put(s, i, h.(stage := DropRequest, reserved := None))
      .(table := if h.reserved.Some? then Free(s.table, h.reserved.value).0 else s.table)
  }

  /** `drop`, second lock: a request nobody decided or withdrew goes back to the head of the queue. */
  function DropsRequest(s: State, i: nat): State
    requires i < |s.handles|
  {
    var h := s.handles[i];
    var over := Put(s, i, h.(stage := Over));
    if !h.pending || h.cancelled then over
    else
      over.(queue := [h.request] + s.queue,
            requeued := if h.request.remote in s.withdrawn then s.requeued + {h.request.remote} else s.requeued)
  }

  // ---- other channels of the connection ----

  /** Our own OPEN takes a slot. */
  function WeOpen(s: State): State {
    match Allocate(s.table)
    case None => s
    case Some((t, ch)) => s.(table := SetSlot(t, ch.slot, Some(OpeningSlot(ch.local, t.policy))))
  }

  /** The device answers it under an id of its own. */
  function DeviceReadies(s: State, idx: nat, remote: nat): State
    requires idx < |s.table.slots| && s.table.slots[idx].Some?
  {
    Fresh(s, remote).(table := SetSlot(s.table, idx,
                                       Some(s.table.slots[idx].value.(remote := Some(remote), state := Open))))
  }

  /** A slot is closed by the device under our id, or by a fault. */
  function SlotCloses(s: State, idx: nat): State
    requires idx < |s.table.slots| && s.table.slots[idx].Some?
  {
    s.(table := SetSlot(s.table, idx, Some(ApplyClose(s.table.slots[idx].value))))
  }

  function SlotFreed(s: State, idx: nat): State
    requires idx < |s.table.slots|
  {
    s.(table := SetSlot(s.table, idx, None))
  }

  datatype Event =
    | DeviceOpen(r: Request) | DeviceOpenFull(r: Request) | DeviceClose(remote: nat) | WithdrawOpen
    | Take | Accept(i: nat) | Reject(i: nat) | Sent(i: nat) | DeviceGone(i: nat) | Abandon(i: nat)
    | FreeReserved(i: nat) | Unstage(i: nat)
    | WeOpened | DeviceReady(idx: nat, remote: nat) | SlotClose(idx: nat) | SlotFree(idx: nat)

  ghost predicate Possible(s: State, e: Event) {
    match e
    case DeviceOpen(r) => s.withdrawing.None? && Unused(s, r.remote)
    case DeviceOpenFull(r) => s.withdrawing.None? && Unused(s, r.remote)
    case DeviceClose(_) => s.withdrawing.None?
    case WithdrawOpen => s.withdrawing.Some?
    case Take => s.queue != []
    case Accept(i) => i < |s.handles| && s.handles[i].stage == Undecided && s.table.nextLocalId < U32_MAX
    case Reject(i) => i < |s.handles| && s.handles[i].stage == Undecided
    case Sent(i) => i < |s.handles| && s.handles[i].stage == Answering
    case DeviceGone(i) => i < |s.handles| && s.handles[i].stage == Answering
    case Abandon(i) => i < |s.handles| && (s.handles[i].stage == Answering || s.handles[i].stage == Undecided)
    case FreeReserved(i) => i < |s.handles| && s.handles[i].stage == DropSlot
    case Unstage(i) => i < |s.handles| && s.handles[i].stage == DropRequest
    case WeOpened => s.table.nextLocalId < U32_MAX
    case DeviceReady(idx, remote) =>
      && s.withdrawing.None? && Unused(s, remote)
      && idx < |s.table.slots| && s.table.slots[idx].Some? && s.table.slots[idx].value.state == Opening
    case SlotClose(idx) => s.withdrawing.None? && idx < |s.table.slots| && s.table.slots[idx].Some?
    case SlotFree(idx) => idx < |s.table.slots| && s.table.slots[idx].Some? && !Reserved(s, idx)
  }

  /** A slot an accept still answers for; nobody else knows its channel. */
  ghost predicate Reserved(s: State, idx: nat) {
    exists i :: 0 <= i < |s.handles| && s.handles[i].reserved.Some? && s.handles[i].reserved.value.slot == idx
  }

  ghost function After(s: State, e: Event): State
    requires Possible(s, e)
  {
    match e
    case DeviceOpen(r) => DeviceOpens(s, r)
    case DeviceOpenFull(r) => DeviceOpensFull(s, r)
    case DeviceClose(remote) => DeviceCloses(s, remote)
    case WithdrawOpen => Withdraws(s, s.withdrawing.value)
    case Take => Takes(s)
    case Accept(i) => Accepts(s, i)
    case Reject(i) => Rejects(s, i)
    case Sent(i) => AnswerSent(s, i)
    case DeviceGone(i) => AnswerGone(s, i)
    case Abandon(i) => Abandons(s, i)
    case FreeReserved(i) => DropsSlot(s, i)
    case Unstage(i) => DropsRequest(s, i)
    case WeOpened => WeOpen(s)
    case DeviceReady(idx, remote) => DeviceReadies(s, idx, remote)
    case SlotClose(idx) => SlotCloses(s, idx)
    case SlotFree(idx) => SlotFreed(s, idx)
  }
}
