/** What every reachable state of a split connection satisfies. */
module SplitInvariants {
  import opened Prelude
  import opened SendQueues
  import opened Slots
  import opened ChannelTables
  import opened SplitMachine

  // ---- shape ----

  /** A channel is handed over only once it has opened; one still opening has no credit yet. */
  ghost predicate SlotShape(handed: set<nat>, entry: Option<Slot>) {
    entry.Some? ==>
      && (entry.value.local in handed ==> entry.value.state != Opening && entry.value.remote.Some?)
      && (entry.value.state == Open ==> entry.value.remote.Some?)
      && (entry.value.state == Opening ==>
            entry.value.sendBudget == 0 && entry.value.remote.None? && entry.value.wrteAcked)
  }

  ghost predicate TableShape(table: Table, handed: set<nat>) {
    && TableOk(table)
    && (forall l <- handed :: 0 < l < table.nextLocalId)
    && (forall idx :: 0 <= idx < |table.slots| ==> SlotShape(handed, table.slots[idx]))
  }

  predicate IsUser(t: Task) { t.kind.WriterCall? || t.kind.CloseCall? || t.kind.ReadCall? }

  /** Writers, closers and readers work on channels handed to them; armed calls on channels not handed over yet. */
  ghost predicate TaskShape(t: Task, count: nat, nextId: nat, handed: set<nat>) {
    && PcShape(t)
    && (IsUser(t) ==> t.ch.slot < count && t.ch.local in handed)
    && (t.armed ==> t.ch.slot < count && 0 < t.ch.local < nextId && t.ch.local !in handed)
  }

  ghost predicate TasksShape(tasks: seq<Task>, count: nat, nextId: nat, handed: set<nat>) {
    && (forall i :: 0 <= i < |tasks| ==> TaskShape(tasks[i], count, nextId, handed))
    && (forall i, j :: 0 <= i < j < |tasks| && tasks[i].armed && tasks[j].armed ==>
          tasks[i].ch.local != tasks[j].ch.local)
  }

  /** The write half has one holder, the connection one `Reader`. */
  ghost predicate OneEach(tasks: seq<Task>, holder: Option<nat>) {
    && (forall i :: 0 <= i < |tasks| ==> (tasks[i].half <==> holder == Some(i)))
    && (forall i :: 0 <= i < |tasks| ==> (tasks[i].kind.Receiver? <==> i == 0))
  }

  /** A slot `accept` reserved is open from the start. */
  ghost predicate AcceptedOpen(tasks: seq<Task>, slots: Entries) {
    forall i, idx :: 0 <= i < |tasks| && 0 <= idx < |slots| && tasks[i].armed && tasks[i].kind.AcceptCall?
                     && Ours(slots[idx], tasks[i].ch.local) ==>
      slots[idx].value.state != Opening && slots[idx].value.remote.Some?
  }

  ghost predicate Basic(s: State) {
    && Shaped(s)
    && AcceptedOpen(s.tasks, s.table.slots)
    && TableShape(s.table, s.handed)
    && TasksShape(s.tasks, |s.table.slots|, s.table.nextLocalId, s.handed)
    && OneEach(s.tasks, s.holder)
    && (s.endedInStep ==> s.stopped || (|s.tasks| > 0 && s.tasks[0].pc == R(RStop3)))
  }

  // ---- send credit ----

  /** What the `CreditGuard`s of one channel add up to: guards, unsent bytes, unsent reservations. */
  datatype Measure = Guards(ch: ChannelId) | Unsent(ch: ChannelId) | Tokens(ch: ChannelId)

  function Weigh(m: Measure, t: Task): nat {
    if t.credit.None? || t.ch != m.ch then 0
    else
      match m
      case Guards(_) => 1
      case Unsent(_) => if t.credit.value.spent then 0 else t.credit.value.n
      case Tokens(_) => if t.credit.value.spent then 0 else 1
  }

  /** Nothing gave the channel a second go-ahead: no OKAY for a WRTE still reserved, no refund of one the device has. */
  predicate Tidy(book: Book) { !book.rude && !book.regretted }

  ghost function Sum(tasks: seq<Task>, m: Measure): nat {
    if tasks == [] then 0 else Sum(tasks[..|tasks| - 1], m) + Weigh(m, tasks[|tasks| - 1])
  }

  /**
   The books of one channel balance. With delayed ack, every byte of credit the
   device granted, and every byte taken back, is in the budget, reserved by a live
   guard or with the device as part of a WRTE. Without it, there is exactly one
   of: the free token, a reservation, a WRTE the device has not OKAYed.
   */
  ghost predicate CreditAt(entry: Option<Slot>, idx: nat, tasks: seq<Task>, book: Book) {
    entry.Some? ==>
      var slot := entry.value;
      var ch := ChannelId(idx, slot.local);
      && slot.queue.sending == Sum(tasks, Guards(ch))
      && (slot.policy.ack == Delayed ==>
            0 <= slot.sendBudget
            && book.granted + book.takenBack == slot.sendBudget + Sum(tasks, Unsent(ch)) + book.sent)
      && (slot.policy.ack == Classic && Tidy(book) ==>
            (if slot.wrteAcked then 1 else 0) + Sum(tasks, Tokens(ch)) + book.outstanding == 1)
      && (slot.state == Opening ==> book == BLANK)
  }

  ghost predicate CreditInv(s: State) {
    && |s.books| == |s.table.slots|
    && forall idx :: 0 <= idx < |s.books| ==> CreditAt(s.table.slots[idx], idx, s.tasks, s.books[idx])
  }

  // ---- the line of writers ----

  predicate Sits(t: Task, ch: ChannelId, place: nat, no: nat) {
    t.ch == ch && t.seat == Some(Seat(place, no))
  }

  /**
   The ticket queue of one channel is the list of the writers that wait on it,
   in the order they came: the k-th live place belongs to the k-th ticket.
   */
  ghost predicate LineAt(entry: Option<Slot>, idx: nat, line: seq<Ticket>, tasks: seq<Task>, nextTicket: nat) {
    entry.Some? ==>
      var q := entry.value.queue;
      && Valid(q) && |line| == |Waiters(q)|
      && (forall k :: 0 <= k < |line| ==>
            && line[k].task < |tasks| && line[k].no < nextTicket
            && Sits(tasks[line[k].task], ChannelId(idx, entry.value.local), Waiters(q)[k], line[k].no))
      && (forall a, b :: 0 <= a < b < |line| ==> line[a].no < line[b].no)
  }

  /** Every writer that holds a place on a channel still in the table is in its line. */
  ghost predicate Listed(t: Task, i: nat, table: Table, lines: seq<seq<Ticket>>) {
    t.seat.Some? && Get(table, t.ch).Some? && t.ch.slot < |lines| ==> Ticket(t.seat.value.ticket, i) in lines[t.ch.slot]
  }

  ghost predicate LineInv(s: State) {
    && |s.lines| == |s.table.slots|
    && (forall idx :: 0 <= idx < |s.lines| ==> LineAt(s.table.slots[idx], idx, s.lines[idx], s.tasks, s.nextTicket))
    && (forall i :: 0 <= i < |s.tasks| ==> Listed(s.tasks[i], i, s.table, s.lines))
  }
}
