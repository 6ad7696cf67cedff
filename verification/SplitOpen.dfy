/** No open is leaked: every READY that answers an OPEN is handed over or closed, or failed in between and is both. */
module SplitOpen {
  import opened Prelude
  import opened SendQueues
  import opened Slots
  import opened ChannelTables
  import opened SplitMachine
  import opened SplitInvariants
  import opened SplitBasic
  import opened SplitCredit

  // ---- the READY each party is answerable for ----

  predicate OnAccountOf(cause: Cause, r: nat) { cause.ByAnswer? && cause.answer == r }

  /** How many CLSEs were owed on account of the `r`-th READY. */
  ghost function Owing(debts: seq<Debt>, r: nat): nat {
    if debts == [] then 0
    else Owing(debts[..|debts| - 1], r) + if OnAccountOf(debts[|debts| - 1].cause, r) then 1 else 0
  }

  lemma OwingPush(debts: seq<Debt>, d: Debt, r: nat)
    ensures Owing(debts + [d], r) == Owing(debts, r) + if OnAccountOf(d.cause, r) then 1 else 0
  {
    assert (debts + [d])[..|debts|] == debts;
  }

  lemma {:induction false} OwingNone(debts: seq<Debt>, r: nat)
    requires forall k :: 0 <= k < |debts| ==> !OnAccountOf(debts[k].cause, r)
    ensures Owing(debts, r) == 0
  {
    if debts != [] { OwingNone(debts[..|debts| - 1], r); }
  }

  datatype Charge = Charge(answer: nat, ids: ChannelIds, fault: Option<nat>)

  function ChargeOf(cause: Cause, ids: ChannelIds): Option<Charge> {
    if cause.ByAnswer? then Some(Charge(cause.answer, ids, cause.fault)) else None
  }

  /**
   The ids of a CLSE for a READY: the READY's own, except that one owed for a
   fault carries the id the faulty packet came from.
   */
  predicate Names(ids: ChannelIds, fault: Option<nat>, a: Answer) {
    ids.local == a.ids.local && ids.remote == if fault.Some? then fault.value else a.ids.remote
  }

  /** The READY the `Reader` is about to owe a CLSE for, and the ids the CLSE will carry. */
  function Charges(t: Task): Option<Charge> {
    if !t.pc.R? then None
    else
      match t.pc.r
      case RAct(outcome, answer, _) =>
        if answer.None? then None
        else if outcome.StrayReady? then Some(Charge(answer.value, outcome.ids, None))
        else if outcome.ChannelFault? then Some(Charge(answer.value, outcome.ids, None))
        else Some(Charge(answer.value, ChannelIds(0, 0), None))
      case RFail(_, ids, _, cause) => ChargeOf(cause, ids)
      case RFailWake(_, ids, cause) => ChargeOf(cause, ids)
      case ROwe(d) => ChargeOf(d.cause, if d.what.CloseIt? then d.what.ids else ChannelIds(0, 0))
      case _ => None
  }

  /** What the `Reader` holds to between a packet and the debt it leads to. */
  predicate ReaderAt(t: Task, table: Table) {
    t.pc.R? ==>
      match t.pc.r
      case RAct(outcome, answer, from) =>
        && (answer.Some? <==> RefusedAnswer(outcome))
        && (answer.Some? && outcome.ChannelFault? ==> StillOpening(table, outcome.idx, outcome.ids.local))
        && (outcome.ChannelFault? ==> outcome.ids.remote == from)
      case RFail(idx, ids, _, cause) =>
        && (cause.ByAnswer? ==> StillOpening(table, idx, ids.local))
        && (!cause.ByAnswer? ==> cause == ByFault(ids.remote))
      case ROwe(d) => d.cause.ByAnswer? ==> d.what.CloseIt?
      case _ => true
  }

  predicate StillOpening(table: Table, idx: nat, local: nat) {
    && local < table.nextLocalId
    && var slot := Get(table, ChannelId(idx, local));
       slot.Some? ==> slot.value.state == Opening
  }

  /** The slot's book names the READY that opened it; while that waits, nobody has the channel and it has not failed. */
  ghost predicate SlotAnswer(entry: Option<Slot>, book: Book, answers: seq<Answer>, handed: set<nat>) {
    entry.Some? && book.answer.Some? ==>
      && book.answer.value < |answers|
      && entry.value.state != Opening && Ids(entry.value) == Some(answers[book.answer.value].ids)
      && (answers[book.answer.value].fate == Waiting ==> !IsFailed(entry.value) && entry.value.local !in handed)
  }

  predicate Answers(entry: Option<Slot>, book: Book, r: nat) { entry.Some? && book.answer == Some(r) }

  /**
   A READY is waiting in a slot, handed over, about to be closed by the `Reader`,
   or closed once. One that was handed over is closed too if its channel had
   failed by then, and only then.
   */
  ghost predicate AnswerAt(a: Answer, r: nat, slots: Entries, books: seq<Book>, handed: set<nat>, recorded: seq<Debt>,
                           charge: Option<Charge>)
    requires |slots| == |books|
  {
    && Owing(recorded, r) == (if a.fate == ClosedOff then 1 else 0)
    && (a.fate == Waiting ==> exists idx :: 0 <= idx < |slots| && Answers(slots[idx], books[idx], r))
    && (a.given == Some(false) <==> a.fate == Handed)
    && (a.given == Some(true) ==> a.fate == Closing || a.fate == ClosedOff)
    && (a.given.Some? ==> a.ids.local in handed)
    && (a.fate == Closing <==> charge.Some? && charge.value.answer == r)
    && (a.fate == Closing ==> Names(charge.value.ids, charge.value.fault, a))
  }

  ghost predicate DebtNames(d: Debt, answers: seq<Answer>) {
    d.cause.ByAnswer? ==>
      d.cause.answer < |answers| && d.what.CloseIt? && Names(d.what.ids, d.cause.fault, answers[d.cause.answer])
  }

  predicate Owns(t: Task, idx: nat, local: nat) { t.armed && t.ch == ChannelId(idx, local) }

  /** No slot is left behind: one that was not handed over has a call that will hand it over or free it. */
  ghost predicate Owned(entry: Option<Slot>, idx: nat, handed: set<nat>, tasks: seq<Task>) {
    entry.Some? && entry.value.local !in handed ==>
      exists i :: 0 <= i < |tasks| && Owns(tasks[i], idx, entry.value.local)
  }

  /** A channel the device opened answers none of our OPENs. */
  predicate AcceptedAt(t: Task, table: Table, books: seq<Book>) {
    t.armed && t.kind.AcceptCall? && Get(table, t.ch).Some? && t.ch.slot < |books| ==> books[t.ch.slot].answer.None?
  }

  /** A channel of ours that opened and was not handed over has its READY waiting, unless it failed. */
  predicate OpenerAt(t: Task, table: Table, books: seq<Book>, answers: seq<Answer>) {
    t.armed && t.kind.OpenCall? && t.ch.slot < |books| ==>
      var slot := Get(table, t.ch);
      slot.Some? && slot.value.remote.Some? ==>
        && books[t.ch.slot].answer.Some? && books[t.ch.slot].answer.value < |answers|
        && NotGiven(answers[books[t.ch.slot].answer.value], IsFailed(slot.value))
  }

  predicate NotGiven(a: Answer, failed: bool) { a.given.None? && a.fate != Handed && (a.fate != Waiting ==> failed) }

  ghost predicate OpenInv(s: State) {
    && |s.books| == |s.table.slots| && |s.tasks| > 0
    && (forall idx :: 0 <= idx < |s.books| ==> SlotAnswer(s.table.slots[idx], s.books[idx], s.answers, s.handed))
    && (forall idx :: 0 <= idx < |s.table.slots| ==> Owned(s.table.slots[idx], idx, s.handed, s.tasks))
    && (forall r :: 0 <= r < |s.answers| ==>
          AnswerAt(s.answers[r], r, s.table.slots, s.books, s.handed, s.recorded, Charges(s.tasks[0])))
    && (forall k :: 0 <= k < |s.recorded| ==> DebtNames(s.recorded[k], s.answers))
    && (forall i :: 0 <= i < |s.tasks| ==> AcceptedAt(s.tasks[i], s.table, s.books))
    && (forall i :: 0 <= i < |s.tasks| ==> OpenerAt(s.tasks[i], s.table, s.books, s.answers))
    && ReaderAt(s.tasks[0], s.table)
    && (Charges(s.tasks[0]).Some? ==> Charges(s.tasks[0]).value.answer < |s.answers|)
  }

  // ---- what a step may do ----

  /** No slot with a waiting READY fails, is freed or is handed over unnoticed. */
  ghost predicate Unwaited(s: State, t: Task, e: Effect) {
    && (e.table.SetAt? && e.table.idx < |s.table.slots| && s.table.slots[e.table.idx].Some? ==>
          IsFailed(e.table.slot) ==> IsFailed(s.table.slots[e.table.idx].value) || WaitingAnswer(s, e.table.idx).None?)
    && (e.table.Drop? && Get(s.table, e.table.ch).Some? ==> WaitingAnswer(s, e.table.ch.slot).None?)
    && (e.hand && Get(s.table, t.ch).Some? ==> WaitingAnswer(s, t.ch.slot).None?)
  }

  ghost predicate BookLaw(s: State, e: Effect) {
    e.book.SetBook? ==>
      if e.table.Add? then e.book.idx == e.table.ch.slot && e.book.book.answer.None?
      else e.book.idx < |s.books| && e.book.book.answer == s.books[e.book.idx].answer
  }

  ghost predicate PlainNote(s: State, t: Task, e: Effect) {
    && (e.debt.Push? ==> !e.debt.debt.cause.ByAnswer?)
    && Charges(e.task) == Charges(t) && BookLaw(s, e) && Unwaited(s, t, e)
  }

  /** A READY changes hands together with its slot, its debt or the `Reader`'s word. */
  ghost predicate FateLaw(s: State, t: Task, e: Effect, r: nat, fate: Fate) {
    && r < |s.answers| && e.book.SameBook?
    && (match fate
        case Handed => false
        case ClosedOff =>
          && e.debt.Push? && OnAccountOf(e.debt.debt.cause, r) && !e.hand
          && e.debt.debt.what.CloseIt? && Names(e.debt.debt.what.ids, e.debt.debt.cause.fault, s.answers[r])
          && Charges(e.task).None?
          && if e.table.Drop?
             then Charges(t).None? && Get(s.table, e.table.ch).Some? && WaitingAnswer(s, e.table.ch.slot) == Some(r)
             else e.table.SameTable? && Charges(t).Some? && Charges(t).value.answer == r
        case Closing =>
          && e.table.SetAt? && e.table.idx < |s.table.slots| && s.table.slots[e.table.idx].Some?
          && WaitingAnswer(s, e.table.idx) == Some(r)
          && !e.debt.Push? && !e.hand && Charges(t).None? && ChargedFor(e.task, r, s.answers[r])
        case Waiting => false)
  }

  predicate ChargedFor(t: Task, r: nat, a: Answer) {
    var c := Charges(t);
    c.Some? && c.value.answer == r && Names(c.value.ids, c.value.fault, a)
  }

  /** A caller gets the channel of a READY; it waits no longer, or its channel has failed. */
  ghost predicate HandOverLaw(s: State, t: Task, e: Effect, r: nat, failed: bool) {
    && r < |s.answers| && e.book.SameBook? && e.hand && e.table.SameTable? && !e.debt.Push?
    && Charges(e.task) == Charges(t)
    && t.pc == O(OLook) && t.armed && t.kind.OpenCall? && !e.task.armed
    && t.ch.slot < |s.books| && s.books[t.ch.slot].answer == Some(r)
    && var slot := Get(s.table, t.ch);
       slot.Some? && failed == IsFailed(slot.value) && NotGiven(s.answers[r], failed)
       && (failed ==> s.answers[r].fate != Waiting) && Ids(slot.value) == Some(s.answers[r].ids)
  }

  ghost predicate NewLaw(s: State, t: Task, e: Effect, a: Answer)
    requires |s.books| == |s.table.slots|
  {
    && !e.debt.Push? && !e.hand && Charges(t).None?
    && (match a.fate
        case Waiting =>
          && e.table.SetAt? && e.table.idx < |s.table.slots| && s.table.slots[e.table.idx].Some?
          && s.table.slots[e.table.idx].value.state == Opening && s.books[e.table.idx].answer.None?
          && e.table.slot.state != Opening && Ids(e.table.slot) == Some(a.ids) && !IsFailed(e.table.slot)
          && e.book.SetBook? && e.book.idx == e.table.idx && e.book.book.answer == Some(|s.answers|)
          && Charges(e.task).None?
        case Closing =>
          e.table.SameTable? && e.book.SameBook? && ChargedFor(e.task, |s.answers|, a)
        case _ => false)
    && a.given.None?
  }

  ghost predicate OwnerLaw(s: State, t: Task, e: Effect) {
    && (e.table.Add? ==> e.task.armed && e.task.ch == e.table.ch && !t.armed
                         && e.book.SetBook? && e.book.idx == e.table.ch.slot && e.book.book.answer.None?)
    && (t.armed && !e.task.armed ==> e.hand || e.table == Drop(t.ch) || Get(s.table, t.ch).None?)
    && (e.task.armed && e.task.kind.AcceptCall? ==>
          e.table.Add? || (t.armed && t.kind.AcceptCall? && t.ch == e.task.ch))
    && (!t.kind.Receiver? && e.table.SetAt? && e.table.idx < |s.table.slots| && s.table.slots[e.table.idx].Some? ==>
          e.table.slot.state == s.table.slots[e.table.idx].value.state)
    && (t.kind.Receiver? ==> ReaderAt(e.task, ChangeTable(s.table, e.table)))
    && (!t.kind.Receiver? ==> Charges(e.task) == Charges(t))
    && OpenerLaw(s, t, e)
  }

  /** Only a READY that is noted opens a channel, and nothing mends one that failed. */
  ghost predicate OpenerLaw(s: State, t: Task, e: Effect) {
    && (e.table.SetAt? && e.table.idx < |s.table.slots| && s.table.slots[e.table.idx].Some? ==>
          && (s.table.slots[e.table.idx].value.remote.None? && e.table.slot.remote.Some? ==>
                e.note.NewAnswer? && e.note.answer.fate == Waiting)
          && (IsFailed(s.table.slots[e.table.idx].value) ==> IsFailed(e.table.slot)))
    && (e.table.Add? && e.task.kind.OpenCall? ==> e.table.slot.remote.None?)
    && (e.task.armed && e.task.kind.OpenCall? && !e.table.Add? ==> t.armed && t.kind.OpenCall? && t.ch == e.task.ch)
    && (e.note.SetFate? && e.note.fate == Closing && e.table.SetAt? ==> IsFailed(e.table.slot))
  }

  ghost predicate NoteLaw(s: State, t: Task, e: Effect)
    requires |s.books| == |s.table.slots|
  {
    match e.note
    case NewAnswer(a) => NewLaw(s, t, e, a)
    case SetFate(r, fate) => FateLaw(s, t, e, r, fate)
    case HandOver(r, failed) => HandOverLaw(s, t, e, r, failed)
    case NoNote => PlainNote(s, t, e)
  }

  ghost predicate OpenLaw(s: State, t: Task, e: Effect)
    requires |s.books| == |s.table.slots|
  {
    NoteLaw(s, t, e) && OwnerLaw(s, t, e)
  }

  /** A slot nobody was handed belongs to the one armed call with its id. */
  lemma OwnerIs(s: State, i: nat, idx: nat)
    requires Basic(s) && OpenInv(s) && i < |s.tasks| && s.tasks[i].armed
    requires idx < |s.table.slots| && Ours(s.table.slots[idx], s.tasks[i].ch.local)
    ensures idx == s.tasks[i].ch.slot
  {
    hide PcShape;
    assert TaskShape(s.tasks[i], |s.table.slots|, s.table.nextLocalId, s.handed);
    assert Owned(s.table.slots[idx], idx, s.handed, s.tasks);
    var j :| 0 <= j < |s.tasks| && Owns(s.tasks[j], idx, s.tasks[i].ch.local);
    assert j == i;
  }

  // ---- the step keeps each part ----

  function EntryAfter(slots: Entries, c: TableChange, idx: nat): Option<Slot>
    requires idx < |slots|
  {
    match c
    case SameTable => slots[idx]
    case SetAt(at, slot) => if at == idx then Some(slot) else slots[idx]
    case Add(ch, slot) => if ch.slot == idx then Some(slot) else slots[idx]
    case Drop(ch) => if ch.slot == idx && Ours(slots[idx], ch.local) then None else slots[idx]
  }

  lemma EntryIs(table: Table, handed: set<nat>, c: TableChange, idx: nat)
    requires TableLaw(table, handed, c) && idx < |table.slots|
    ensures |ChangeTable(table, c).slots| == |table.slots|
    ensures ChangeTable(table, c).slots[idx] == EntryAfter(table.slots, c, idx)
  {
  }

  ghost function HandedAfter(s: State, t: Task, e: Effect): set<nat> {
    if e.hand then s.handed + {t.ch.local} else s.handed
  }

  /** The part of the state one slot's answer depends on. */
  ghost predicate SlotAnswerAfter(s: State, t: Task, e: Effect, idx: nat)
    requires idx < |s.books| == |s.table.slots|
  {
    SlotAnswer(EntryAfter(s.table.slots, e.table, idx), ChangeBooks(s.books, e.book)[idx],
               ChangeAnswers(s.answers, e.note),
               HandedAfter(s, t, e))
  }

  ghost predicate SlotReady(s: State, t: Task, e: Effect, idx: nat) {
    && idx < |s.books| == |s.table.slots|
    && SlotAnswer(s.table.slots[idx], s.books[idx], s.answers, s.handed)
    && SlotShape(s.handed, s.table.slots[idx]) && TableLaw(s.table, s.handed, e.table)
    && (e.hand && Ours(s.table.slots[idx], t.ch.local) ==> idx == t.ch.slot)
  }

  lemma PlainSlot(s: State, t: Task, e: Effect, idx: nat)
    requires SlotReady(s, t, e, idx) && PlainNote(s, t, e) && e.note.NoNote?
    requires e.table.Add? ==> e.book.SetBook?
    ensures SlotAnswerAfter(s, t, e, idx)
  {
    hide Charges, SlotShape;
  }

  lemma NewSlot(s: State, t: Task, e: Effect, idx: nat)
    requires SlotReady(s, t, e, idx) && e.note.NewAnswer? && NewLaw(s, t, e, e.note.answer)
    ensures SlotAnswerAfter(s, t, e, idx)
  {
    hide Charges;
  }

  lemma FateSlot(s: State, t: Task, e: Effect, idx: nat)
    requires SlotReady(s, t, e, idx) && e.note.SetFate? && FateLaw(s, t, e, e.note.r, e.note.fate)
    ensures SlotAnswerAfter(s, t, e, idx)
  {
    hide Charges, SlotShape;
  }

  lemma HandOverSlot(s: State, t: Task, e: Effect, idx: nat)
    requires SlotReady(s, t, e, idx) && e.note.HandOver? && HandOverLaw(s, t, e, e.note.r, e.note.failed)
    ensures SlotAnswerAfter(s, t, e, idx)
  {
    hide Charges, SlotShape;
  }

  lemma SlotKeepsAnswer(s: State, i: nat, e: Effect, idx: nat)
    requires Basic(s) && OpenInv(s) && i < |s.tasks| && idx < |s.books|
    requires Lawful(s, s.tasks[i], e) && OpenLaw(s, s.tasks[i], e)
    ensures SlotAnswerAfter(s, s.tasks[i], e, idx)
  {
    hide PcShape, TasksShape, TaskLaw, Charges, ReaderAt, AnswerAt, Owned, AcceptedAt, DebtNames, SlotAnswer,
         SlotAnswerAfter, FateLaw, NewLaw, HandOverLaw, PlainNote, TableLaw;
    var t := s.tasks[i];
    assert SlotAnswer(s.table.slots[idx], s.books[idx], s.answers, s.handed);
    assert SlotShape(s.handed, s.table.slots[idx]);
    if e.hand && Ours(s.table.slots[idx], t.ch.local) { OwnerIs(s, i, idx); }
    match e.note {
      case NewAnswer(_) => NewSlot(s, t, e, idx);
      case SetFate(_, _) => FateSlot(s, t, e, idx);
      case HandOver(_, _) => HandOverSlot(s, t, e, idx);
      case NoNote => PlainSlot(s, t, e, idx);
    }
  }

  lemma StaysOwned(s: State, i: nat, e: Effect, idx: nat)
    requires Basic(s) && OpenInv(s) && i < |s.tasks| && idx < |s.table.slots|
    requires Lawful(s, s.tasks[i], e) && OwnerLaw(s, s.tasks[i], e)
    ensures Owned(EntryAfter(s.table.slots, e.table, idx), idx, HandedAfter(s, s.tasks[i], e), s.tasks[i := e.task])
  {
    hide PcShape, Charges, ReaderAt, AnswerAt, SlotAnswer, AcceptedAt, DebtNames, HandLaw, TableShape, TasksShape,
         SoundTable;
    var t := s.tasks[i];
    var tasks := s.tasks[i := e.task];
    var entry := EntryAfter(s.table.slots, e.table, idx);
    assert Owned(s.table.slots[idx], idx, s.handed, s.tasks);
    if entry.Some? && entry.value.local !in HandedAfter(s, t, e) {
      var local := entry.value.local;
      if e.table.Add? && e.table.ch.slot == idx {
        assert Owns(tasks[i], idx, local);
      } else {
        var j :| 0 <= j < |s.tasks| && Owns(s.tasks[j], idx, local);
        assert Owns(tasks[j], idx, local);
      }
    }
  }

  /** Only the `Reader` answers for a READY that is about to be closed. */
  lemma ChargeMoves(s: State, i: nat, e: Effect)
    requires Basic(s) && i < |s.tasks| && TaskLaw(s, s.tasks[i], e) && OwnerLaw(s, s.tasks[i], e)
    ensures var t := s.tasks[i]; var after := Charges(s.tasks[i := e.task][0]);
            if Charges(t) == Charges(e.task) then after == Charges(s.tasks[0])
            else Charges(s.tasks[0]) == Charges(t) && after == Charges(e.task)
  {
    hide TableShape, AcceptedOpen, Charges, ReaderAt;
    assert TaskShape(s.tasks[i], |s.table.slots|, s.table.nextLocalId, s.handed);
    if i != 0 { assert !s.tasks[i].kind.Receiver?; }
  }

  ghost predicate AnswerAfter(s: State, i: nat, e: Effect, r: nat)
    requires i < |s.tasks| && r < |ChangeAnswers(s.answers, e.note)|
  {
    var slots := ChangeTable(s.table, e.table).slots;
    var books := ChangeBooks(s.books, e.book);
    && |slots| == |books|
    && AnswerAt(ChangeAnswers(s.answers, e.note)[r], r, slots, books, HandedAfter(s, s.tasks[i], e),
                if e.debt.Push? then s.recorded + [e.debt.debt] else s.recorded, Charges(s.tasks[i := e.task][0]))
  }

  ghost predicate AnswerReady(s: State, i: nat, e: Effect, r: nat) {
    && i < |s.tasks| && |s.books| == |s.table.slots| && r < |s.answers|
    && AnswerAt(s.answers[r], r, s.table.slots, s.books, s.handed, s.recorded, Charges(s.tasks[0]))
    && TableLaw(s.table, s.handed, e.table)
    && (var t := s.tasks[i]; var after := Charges(s.tasks[i := e.task][0]);
        if Charges(t) == Charges(e.task) then after == Charges(s.tasks[0])
        else Charges(s.tasks[0]) == Charges(t) && after == Charges(e.task))
  }

  /** A slot that holds a waiting READY keeps it unless it is the one the step takes it from. */
  lemma StillWaits(s: State, e: Effect, r: nat, idx: nat)
    requires |s.books| == |s.table.slots| && idx < |s.books| && Answers(s.table.slots[idx], s.books[idx], r)
    requires TableLaw(s.table, s.handed, e.table)
    requires e.table.Drop? && e.table.ch.slot == idx ==> Get(s.table, e.table.ch).None?
    requires e.book.SetBook? && e.book.idx == idx ==> e.book.book.answer == Some(r)
    ensures |ChangeTable(s.table, e.table).slots| == |ChangeBooks(s.books, e.book)| == |s.books|
    ensures Answers(ChangeTable(s.table, e.table).slots[idx], ChangeBooks(s.books, e.book)[idx], r)
  {
    EntryIs(s.table, s.handed, e.table, idx);
  }

  lemma SameSizes(s: State, e: Effect)
    requires |s.books| == |s.table.slots| && TableLaw(s.table, s.handed, e.table)
    ensures |ChangeTable(s.table, e.table).slots| == |ChangeBooks(s.books, e.book)| == |s.books|
  {
  }

  lemma PlainAnswer(s: State, i: nat, e: Effect, r: nat)
    requires AnswerReady(s, i, e, r) && PlainNote(s, s.tasks[i], e) && e.note.NoNote?
    ensures AnswerAfter(s, i, e, r)
  {
    hide Charges, Owing, ChangeTable, ChangeBooks;
    SameSizes(s, e);
    if e.debt.Push? { OwingPush(s.recorded, e.debt.debt, r); }
    if s.answers[r].fate == Waiting {
      var idx :| 0 <= idx < |s.table.slots| && Answers(s.table.slots[idx], s.books[idx], r);
      StillWaits(s, e, r, idx);
    }
  }

  lemma NewAnswerKept(s: State, i: nat, e: Effect, r: nat)
    requires AnswerReady(s, i, e, r) && e.note.NewAnswer? && NewLaw(s, s.tasks[i], e, e.note.answer)
    ensures AnswerAfter(s, i, e, r)
  {
    hide Charges, Owing, ChangeTable, ChangeBooks;
    SameSizes(s, e);
    if s.answers[r].fate == Waiting {
      var idx :| 0 <= idx < |s.table.slots| && Answers(s.table.slots[idx], s.books[idx], r);
      StillWaits(s, e, r, idx);
    }
  }

  lemma NewAnswerMade(s: State, i: nat, e: Effect)
    requires i < |s.tasks| && |s.books| == |s.table.slots| && TableLaw(s.table, s.handed, e.table)
    requires e.note.NewAnswer? && NewLaw(s, s.tasks[i], e, e.note.answer)
    requires forall k :: 0 <= k < |s.recorded| ==> DebtNames(s.recorded[k], s.answers)
    requires var t := s.tasks[i]; var after := Charges(s.tasks[i := e.task][0]);
             if Charges(t) == Charges(e.task) then after == Charges(s.tasks[0])
             else Charges(s.tasks[0]) == Charges(t) && after == Charges(e.task)
    requires Charges(s.tasks[0]).Some? ==> Charges(s.tasks[0]).value.answer < |s.answers|
    ensures AnswerAfter(s, i, e, |s.answers|)
  {
    hide Charges, Owing;
    var r := |s.answers|;
    OwingNone(s.recorded, r);
    if e.note.answer.fate == Waiting {
      EntryIs(s.table, s.handed, e.table, e.table.idx);
      assert Answers(ChangeTable(s.table, e.table).slots[e.table.idx], ChangeBooks(s.books, e.book)[e.table.idx], r);
    }
  }

  lemma FateAnswer(s: State, i: nat, e: Effect, r: nat)
    requires AnswerReady(s, i, e, r) && e.note.SetFate? && FateLaw(s, s.tasks[i], e, e.note.r, e.note.fate)
    ensures AnswerAfter(s, i, e, r)
  {
    hide Charges, Owing, ChangeTable, ChangeBooks;
    SameSizes(s, e);
    if e.debt.Push? { OwingPush(s.recorded, e.debt.debt, r); }
    if s.answers[r].fate == Waiting && r != e.note.r {
      var idx :| 0 <= idx < |s.table.slots| && Answers(s.table.slots[idx], s.books[idx], r);
      StillWaits(s, e, r, idx);
    }
  }

  lemma HandOverAnswer(s: State, i: nat, e: Effect, r: nat)
    requires AnswerReady(s, i, e, r) && e.note.HandOver? && HandOverLaw(s, s.tasks[i], e, e.note.r, e.note.failed)
    ensures AnswerAfter(s, i, e, r)
  {
    hide Charges, Owing, ChangeTable, ChangeBooks;
    SameSizes(s, e);
    if s.answers[r].fate == Waiting && r != e.note.r {
      var idx :| 0 <= idx < |s.table.slots| && Answers(s.table.slots[idx], s.books[idx], r);
      StillWaits(s, e, r, idx);
    }
  }

  lemma AnswerKept(s: State, i: nat, e: Effect, r: nat)
    requires Basic(s) && OpenInv(s) && i < |s.tasks| && r < |ChangeAnswers(s.answers, e.note)|
    requires Lawful(s, s.tasks[i], e) && OpenLaw(s, s.tasks[i], e)
    ensures AnswerAfter(s, i, e, r)
  {
    hide Basic, TaskLaw, HandLaw, TableLaw, OwnerLaw, PlainNote, NewLaw, FateLaw, HandOverLaw, AnswerAt, AnswerAfter,
         Charges, ReaderAt, Owned, AcceptedAt, DebtNames, SlotAnswer;
    ChargeMoves(s, i, e);
    if r < |s.answers| {
      assert AnswerAt(s.answers[r], r, s.table.slots, s.books, s.handed, s.recorded, Charges(s.tasks[0]));
    }
    match e.note {
      case NewAnswer(_) => if r < |s.answers| { NewAnswerKept(s, i, e, r); } else { NewAnswerMade(s, i, e); }
      case SetFate(_, _) => FateAnswer(s, i, e, r);
      case HandOver(_, _) => HandOverAnswer(s, i, e, r);
      case NoNote => PlainAnswer(s, i, e, r);
    }
  }

  lemma DebtsStayNamed(s: State, i: nat, e: Effect, d: Debt)
    requires |s.books| == |s.table.slots| && i < |s.tasks| && NoteLaw(s, s.tasks[i], e)
    requires DebtNames(d, s.answers) || (e.debt.Push? && d == e.debt.debt)
    ensures DebtNames(d, ChangeAnswers(s.answers, e.note))
  {
    hide Charges, Unwaited, BookLaw;
  }

  lemma AcceptedKept(s: State, i: nat, e: Effect, j: nat)
    requires Basic(s) && OpenInv(s) && i < |s.tasks| && j < |s.tasks|
    requires Lawful(s, s.tasks[i], e) && OpenLaw(s, s.tasks[i], e)
    ensures AcceptedAt(s.tasks[i := e.task][j], ChangeTable(s.table, e.table), ChangeBooks(s.books, e.book))
  {
    hide PcShape, Charges, ReaderAt, AnswerAt, Owned, DebtNames, SlotAnswer, FateLaw, Unwaited, HandLaw, SlotShape,
         Sound;
    var u := s.tasks[i := e.task][j];
    assert TaskShape(s.tasks[j], |s.table.slots|, s.table.nextLocalId, s.handed);
    assert AcceptedAt(s.tasks[j], s.table, s.books);
    if u.armed && u.ch.slot < |s.table.slots| {
      EntryIs(s.table, s.handed, e.table, u.ch.slot);
      FateKeepsBooks(s, s.tasks[i], e);
    }
  }

  /** A READY waits in one slot only. */
  lemma OneSlotEach(s: State, j: nat, idx: nat)
    requires Basic(s) && OpenInv(s) && j < |s.tasks|
    requires s.tasks[j].armed && Get(s.table, s.tasks[j].ch).Some? && s.books[s.tasks[j].ch.slot].answer.Some?
    requires idx < |s.table.slots| && s.table.slots[idx].Some?
             && s.books[idx].answer == s.books[s.tasks[j].ch.slot].answer
    ensures idx == s.tasks[j].ch.slot
  {
    hide Charges, ReaderAt, AnswerAt, Owned, DebtNames, AcceptedAt, OpenerAt, PcShape, TasksShape;
    assert SlotAnswer(s.table.slots[idx], s.books[idx], s.answers, s.handed);
    assert SlotAnswer(s.table.slots[s.tasks[j].ch.slot], s.books[s.tasks[j].ch.slot], s.answers, s.handed);
  }

  lemma OpenerKept(s: State, i: nat, e: Effect, j: nat)
    requires Basic(s) && OpenInv(s) && i < |s.tasks| && j < |s.tasks|
    requires Lawful(s, s.tasks[i], e) && OpenLaw(s, s.tasks[i], e)
    ensures OpenerAt(s.tasks[i := e.task][j], ChangeTable(s.table, e.table), ChangeBooks(s.books, e.book),
                     ChangeAnswers(s.answers, e.note))
  {
    hide PcShape, Charges, ReaderAt, AnswerAt, Owned, DebtNames, SlotAnswer, HandLaw, SlotShape, Sound, Names,
         AcceptedOpen, OneEach;
    var t := s.tasks[i];
    var u := s.tasks[i := e.task][j];
    assert TaskShape(s.tasks[j], |s.table.slots|, s.table.nextLocalId, s.handed);
    assert OpenerAt(s.tasks[j], s.table, s.books, s.answers);
    if u.armed && u.kind.OpenCall? && u.ch.slot < |s.table.slots| {
      EntryIs(s.table, s.handed, e.table, u.ch.slot);
      FateKeepsBooks(s, t, e);
      if u.ch == s.tasks[j].ch && s.tasks[j].armed && Get(s.table, u.ch).Some? && s.books[u.ch.slot].answer.Some? {
        FateIsElsewhere(s, i, e, j);
        HandOverIsElsewhere(s, i, e, j);
      }
    }
  }

  /** The READY a step settles is its own call's, or its slot fails. */
  lemma FateIsElsewhere(s: State, i: nat, e: Effect, j: nat)
    requires Basic(s) && OpenInv(s) && i < |s.tasks| && j < |s.tasks|
    requires Lawful(s, s.tasks[i], e) && OpenLaw(s, s.tasks[i], e)
    requires var u := s.tasks[i := e.task][j];
             && u.armed && u.kind.OpenCall? && u.ch.slot < |s.table.slots| && u.ch == s.tasks[j].ch && s.tasks[j].armed
             && Get(s.table, u.ch).Some? && s.books[u.ch.slot].answer.Some?
    ensures var u := s.tasks[i := e.task][j];
            e.note.SetFate? && s.books[u.ch.slot].answer == Some(e.note.r) && s.answers[e.note.r].fate == Waiting ==>
              EntryAfter(s.table.slots, e.table, u.ch.slot).None?
              || IsFailed(EntryAfter(s.table.slots, e.table, u.ch.slot).value)
  {
    hide PcShape, ReaderAt, Owned, DebtNames, SlotAnswer, SlotShape, Sound, OpenerAt, AcceptedAt;
    var t := s.tasks[i];
    var u := s.tasks[i := e.task][j];
    if e.note.SetFate? && s.books[u.ch.slot].answer == Some(e.note.r) && s.answers[e.note.r].fate == Waiting {
      assert AnswerAt(s.answers[e.note.r], e.note.r, s.table.slots, s.books, s.handed, s.recorded, Charges(s.tasks[0]));
      match e.note.fate {
        case ClosedOff => if e.table.Drop? { OneSlotEach(s, j, e.table.ch.slot); }
        case Closing => OneSlotEach(s, j, e.table.idx);
        case _ =>
      }
    }
  }

  /** The channel a step hands over is its own call's. */
  lemma HandOverIsElsewhere(s: State, i: nat, e: Effect, j: nat)
    requires Basic(s) && OpenInv(s) && i < |s.tasks| && j < |s.tasks|
    requires OpenLaw(s, s.tasks[i], e)
    requires var u := s.tasks[i := e.task][j];
             && u.armed && u.kind.OpenCall? && u.ch.slot < |s.table.slots| && u.ch == s.tasks[j].ch && s.tasks[j].armed
             && Get(s.table, u.ch).Some? && s.books[u.ch.slot].answer.Some?
    ensures e.note.HandOver? ==> s.books[s.tasks[j].ch.slot].answer != Some(e.note.r)
  {
    hide PcShape, ReaderAt, Owned, DebtNames, SlotAnswer, SlotShape, Sound, OpenerAt, AcceptedAt, OwnerLaw, AnswerAt,
         Charges;
    var t := s.tasks[i];
    if e.note.HandOver? && s.books[s.tasks[j].ch.slot].answer == Some(e.note.r) {
      OneSlotEach(s, j, t.ch.slot);
    }
  }

  lemma FateKeepsBooks(s: State, t: Task, e: Effect)
    requires |s.books| == |s.table.slots| && NoteLaw(s, t, e)
    ensures e.note.SetFate? || e.note.HandOver? ==> e.book.SameBook?
  {
    hide Charges;
  }

  lemma ReaderKept(s: State, i: nat, e: Effect)
    requires Basic(s) && OpenInv(s) && i < |s.tasks|
    requires Lawful(s, s.tasks[i], e) && OwnerLaw(s, s.tasks[i], e)
    ensures ReaderAt(s.tasks[i := e.task][0], ChangeTable(s.table, e.table))
  {
    hide PcShape, Charges, AnswerAt, Owned, DebtNames, SlotAnswer, AcceptedAt, HandLaw, SlotShape, Sound, TasksShape,
         AcceptedOpen, RefusedAnswer;
    if i != 0 {
      assert !s.tasks[i].kind.Receiver?;
      ChangeKeepsTable(s.table, s.handed, e.table);
    }
  }

  lemma ChargeKept(s: State, i: nat, e: Effect)
    requires Basic(s) && OpenInv(s) && i < |s.tasks|
    requires TaskLaw(s, s.tasks[i], e) && OpenLaw(s, s.tasks[i], e)
    ensures var c := Charges(s.tasks[i := e.task][0]); c.Some? ==> c.value.answer < |ChangeAnswers(s.answers, e.note)|
  {
    hide Basic, TaskLaw, Charges, ReaderAt, AnswerAt, Owned, AcceptedAt, DebtNames, SlotAnswer, OwnerLaw, Unwaited,
         BookLaw;
    ChargeMoves(s, i, e);
  }

  lemma ApplyKeepsOpen(s: State, i: nat, e: Effect)
    requires Basic(s) && OpenInv(s) && i < |s.tasks|
    requires Lawful(s, s.tasks[i], e) && OpenLaw(s, s.tasks[i], e)
    ensures OpenInv(Apply(s, i, e))
  {
    hide Charges, ReaderAt, AnswerAt, Owned, AcceptedAt, OpenerAt, DebtNames, SlotAnswer, OwnerLaw, NoteLaw, TaskLaw,
         HandLaw, TableLaw, ChangeTable, ChangeBooks, ChangeAnswers, PcShape, TasksShape, TableShape, AcceptedOpen,
         OneEach;
    var s1 := Apply(s, i, e);
    SameSizes(s, e);
    forall idx | 0 <= idx < |s1.books|
      ensures SlotAnswer(s1.table.slots[idx], s1.books[idx], s1.answers, s1.handed)
      ensures Owned(s1.table.slots[idx], idx, s1.handed, s1.tasks)
    {
      EntryIs(s.table, s.handed, e.table, idx);
      SlotKeepsAnswer(s, i, e, idx);
      StaysOwned(s, i, e, idx);
    }
    forall r | 0 <= r < |s1.answers|
      ensures AnswerAt(s1.answers[r], r, s1.table.slots, s1.books, s1.handed, s1.recorded, Charges(s1.tasks[0]))
    {
      AnswerKept(s, i, e, r);
    }
    forall k | 0 <= k < |s1.recorded| ensures DebtNames(s1.recorded[k], s1.answers) {
      DebtsStayNamed(s, i, e, s1.recorded[k]);
    }
    forall j | 0 <= j < |s1.tasks| ensures AcceptedAt(s1.tasks[j], s1.table, s1.books) {
      AcceptedKept(s, i, e, j);
    }
    forall j | 0 <= j < |s1.tasks| ensures OpenerAt(s1.tasks[j], s1.table, s1.books, s1.answers) {
      OpenerKept(s, i, e, j);
    }
    ReaderKept(s, i, e);
    ChargeKept(s, i, e);
  }

  // ---- every step obeys the law ----

  ghost predicate OpenLocal(s: State, t: Task) {
    && Shaped(s) && TableShape(s.table, s.handed)
    && TaskShape(t, |s.table.slots|, s.table.nextLocalId, s.handed)
    && (forall idx :: 0 <= idx < |s.books| ==> SlotAnswer(s.table.slots[idx], s.books[idx], s.answers, s.handed))
    && AcceptedAt(t, s.table, s.books)
    && (t.kind.Receiver? ==> ReaderAt(t, s.table))
    && OpenerAt(t, s.table, s.books, s.answers)
    && (Charges(t).Some? ==> Charges(t).value.answer < |s.answers|
                             && Names(Charges(t).value.ids, Charges(t).value.fault, s.answers[Charges(t).value.answer]))
  }

  lemma OpenIsLocal(s: State, i: nat)
    requires Basic(s) && OpenInv(s) && i < |s.tasks|
    ensures OpenLocal(s, s.tasks[i])
  {
    hide TableShape, AcceptedOpen, SlotAnswer, Owned, DebtNames, ReaderAt, SoundTable;
    assert TaskShape(s.tasks[i], |s.table.slots|, s.table.nextLocalId, s.handed);
    assert s.tasks[i].kind.Receiver? <==> i == 0;
    assert AcceptedAt(s.tasks[i], s.table, s.books);
    assert OpenerAt(s.tasks[i], s.table, s.books, s.answers);
    var c := Charges(s.tasks[i]);
    if c.Some? {
      var r := c.value.answer;
      assert AnswerAt(s.answers[r], r, s.table.slots, s.books, s.handed, s.recorded, Charges(s.tasks[0]));
    }
  }

  /** A step that leaves ownership, answers and the state of every channel alone. */
  lemma PlainOpen(s: State, t: Task, e: Effect)
    requires |s.books| == |s.table.slots| && e.note.NoNote? && !e.hand && BookLaw(s, e)
    requires e.debt.Push? ==> !e.debt.debt.cause.ByAnswer?
    requires e.table.SameTable? || (e.table.SetAt? && e.table.idx < |s.table.slots| && s.table.slots[e.table.idx].Some?
                                    && e.table.slot.state == s.table.slots[e.table.idx].value.state
                                    && e.table.slot.failed == s.table.slots[e.table.idx].value.failed
                                    && e.table.slot.remote == s.table.slots[e.table.idx].value.remote)
    requires Charges(e.task) == Charges(t)
    requires t.armed || e.task.armed ==> t.armed && e.task.armed && e.task.ch == t.ch && e.task.kind == t.kind
    requires t.kind.Receiver? ==> e.table.SameTable? && ReaderAt(e.task, s.table)
    ensures OpenLaw(s, t, e)
  {
    hide ReaderAt, Charges;
  }

  lemma WriterOpen(s: State, i: nat, t: Task, w: WPc, pick: Pick)
    requires OpenLocal(s, t) && t.pc == W(w) && WriterStep(s, i, t, w, pick).Some?
    ensures OpenLaw(s, t, WriterStep(s, i, t, w, pick).value)
  {
    hide OpenLaw, Serve, Leave, Enqueue, TableShape, SlotAnswer;
    PlainOpen(s, t, WriterStep(s, i, t, w, pick).value);
  }

  lemma HandOverOpen(s: State, t: Task, e: Effect)
    requires OpenLocal(s, t) && t.armed && t.kind.AcceptCall? && e == End().(hand := true, half := Freed)
    ensures OpenLaw(s, t, e)
  {
  }

  lemma LockOpen(s: State, t: Task, l: LPc, pick: Pick)
    requires OpenLocal(s, t) && t.pc == L(l) && LockStep(s, t, l, pick).Some?
    ensures OpenLaw(s, t, LockStep(s, t, l, pick).value)
  {
    hide OpenLaw, TableShape, SlotAnswer, Resume, StepHeld, StepReach, PayStep, SendFails;
    var e := LockStep(s, t, l, pick).value;
    if l.Wait? && pick != Run { ResumeOpen(s, t, if pick == Cancel then Dropped else Errored, SameHalf); }
    else if l.Unlock? && !(s.desync && l.next < |s.sig|) { ResumeOpen(s, t, l.res, Freed); }
    else if l.Held? && pick == Run { HeldOpen(s, t, l.stamp); }
    else if l.Send? && pick == Run { ReachOpen(s, t, l.stamp); }
    else if l.Send? || (l.Flush? && pick != Run) { SendOpen(s, t, pick); }
    else if l.Pay? { PayOpen(s, t, l.debt, pick); }
    else { PlainOpen(s, t, e); }
  }

  lemma SendOpen(s: State, t: Task, pick: Pick)
    requires OpenLocal(s, t) && t.pc.L? && SendFails(t, pick).Some?
    ensures OpenLaw(s, t, SendFails(t, pick).value)
  {
    hide OpenLaw, TableShape, SlotAnswer;
    PlainOpen(s, t, SendFails(t, pick).value);
  }

  lemma PayOpen(s: State, t: Task, d: Debt, pick: Pick)
    requires OpenLocal(s, t) && t.pc.L? && PayStep(t, d, pick).Some?
    ensures OpenLaw(s, t, PayStep(t, d, pick).value)
  {
    hide OpenLaw, TableShape, SlotAnswer;
    PlainOpen(s, t, PayStep(t, d, pick).value);
  }

  lemma HeldOpen(s: State, t: Task, stamp: nat)
    requires OpenLocal(s, t) && t.pc == L(Held(stamp))
    ensures OpenLaw(s, t, StepHeld(s, t, stamp))
  {
    hide OpenLaw, TableShape, SlotAnswer;
    PlainOpen(s, t, StepHeld(s, t, stamp));
  }

  lemma ReachOpen(s: State, t: Task, stamp: nat)
    requires OpenLocal(s, t) && t.pc == L(Send(stamp))
    ensures OpenLaw(s, t, StepReach(s, t, stamp))
  {
    hide OpenLaw, TableShape, SlotAnswer;
    PlainOpen(s, t, StepReach(s, t, stamp));
  }

  lemma ResumeOpen(s: State, t: Task, res: Res, half: HalfChange)
    requires OpenLocal(s, t) && t.pc.L?
    requires (t.pc.l.Wait? && res != Done && half == SameHalf) || (t.pc.l.Unlock? && t.pc.l.res == res && half == Freed)
    ensures OpenLaw(s, t, if half.Freed? then Resume(t, res).(half := Freed) else Resume(t, res))
  {
    hide OpenLaw, TableShape, SlotAnswer;
    var e := if half.Freed? then Resume(t, res).(half := Freed) else Resume(t, res);
    if e.hand { HandOverOpen(s, t, e); } else { PlainOpen(s, t, e); }
  }

  lemma OpenerOpen(s: State, t: Task, o: OPc, pick: Pick)
    requires OpenLocal(s, t) && t.pc == O(o) && OpenerStep(s, t, o, pick).Some?
    ensures OpenLaw(s, t, OpenerStep(s, t, o, pick).value)
  {
    var e := OpenerStep(s, t, o, pick).value;
    if o.OLook? { LookOpen(s, t); }
    else if o.OGuard? { GuardOpen(s, t); }
    else if o.OAlloc? { AllocOpen(s, t); }
    else {
      hide OpenLaw, StepLook, StepGuard, StepAlloc, SlotAnswer, TableShape;
      PlainOpen(s, t, e);
    }
  }

  lemma LookOpen(s: State, t: Task)
    requires OpenLocal(s, t) && t.pc == O(OLook)
    ensures OpenLaw(s, t, StepLook(s, t))
  {
    if Get(s.table, t.ch).Some? {
      assert SlotAnswer(s.table.slots[t.ch.slot], s.books[t.ch.slot], s.answers, s.handed);
    }
  }

  lemma GuardOpen(s: State, t: Task)
    requires OpenLocal(s, t) && t.pc == O(OGuard)
    ensures OpenLaw(s, t, StepGuard(s, t))
  {
    if Get(s.table, t.ch).Some? {
      assert SlotAnswer(s.table.slots[t.ch.slot], s.books[t.ch.slot], s.answers, s.handed);
    }
  }

  lemma AllocOpen(s: State, t: Task)
    requires OpenLocal(s, t) && t.pc == O(OAlloc)
    ensures OpenLaw(s, t, StepAlloc(s))
  {
    hide SlotAnswer, TableShape;
  }

  lemma CloserOpen(s: State, t: Task, c: CPc)
    requires OpenLocal(s, t) && t.pc == C(c)
    ensures OpenLaw(s, t, CloserStep(s, t, c))
  {
    if Get(s.table, t.ch).Some? {
      assert SlotAnswer(s.table.slots[t.ch.slot], s.books[t.ch.slot], s.answers, s.handed);
    }
    if !c.CFree? { hide OpenLaw, SlotAnswer, TableShape; PlainOpen(s, t, CloserStep(s, t, c)); }
  }

  lemma TakerOpen(s: State, t: Task, d: DPc, pick: Pick)
    requires OpenLocal(s, t) && t.pc == D(d) && TakerStep(s, t, d, pick).Some?
    ensures OpenLaw(s, t, TakerStep(s, t, d, pick).value)
  {
    hide OpenLaw, SlotAnswer, TableShape;
    PlainOpen(s, t, TakerStep(s, t, d, pick).value);
  }

  lemma StartOpen(s: State, t: Task, pick: Pick)
    requires OpenLocal(s, t) && t.pc == Rest && StartStep(s, pick).Some?
    ensures OpenLaw(s, t, StartStep(s, pick).value)
  {
    hide SlotAnswer, TableShape;
  }

  lemma FreeOpen(s: State, t: Task)
    requires OpenLocal(s, t) && t.pc == AFree
    ensures OpenLaw(s, t, End().(table := Drop(t.ch)))
  {
  }

  /** A packet never fails a slot by itself, credits no failed one, and a fault names the slot it met. */
  lemma DispatchNames(table: Table, handed: set<nat>, pkt: Packet)
    requires TableShape(table, handed)
    ensures var out := Dispatch(table, pkt);
            var c := Touched(table, out);
            && (c.SetAt? ==>
                  c.idx < |table.slots| && table.slots[c.idx].Some? && c.slot.failed == table.slots[c.idx].value.failed)
            && (c.SetAt? && !out.1.CreditGranted? ==> c.slot.remote == table.slots[c.idx].value.remote)
            && (out.1.CreditGranted? ==> c.SetAt? && c.idx == out.1.idx && !IsFailed(table.slots[c.idx].value))
            && (out.1.ChannelFault? ==>
                  && c.SameTable? && out.1.idx < |table.slots| && table.slots[out.1.idx].Some?
                  && out.1.ids == ChannelIds(table.slots[out.1.idx].value.local, pkt.arg0)
                  && (out.1.opening <==> table.slots[out.1.idx].value.state == Opening))
            && (out.1.StrayReady? ==> c.SameTable?)
  {
    if pkt.command in {Write, Ready, Close} && !(pkt.command == Close && pkt.arg1 == 0) {
      var found := FindLocal(table.slots, pkt.arg1);
      if found.Some? {
        hide OnSlot;
        OnSlotNames(found.value, table.slots[found.value].value, pkt);
      }
    }
  }

  lemma OnSlotNames(idx: nat, slot: Slot, pkt: Packet)
    requires Sound(slot) && pkt.command in {Write, Ready, Close}
    ensures var out := OnSlot(idx, slot, pkt);
            && out.0.failed == slot.failed && (!out.1.CreditGranted? ==> out.0.remote == slot.remote)
            && (out.1.CreditGranted? ==> out.1.idx == idx && !IsFailed(slot))
            && (out.1.AckWrite? ==> out.1.idx == idx) && (out.1.SlotClosed? ==> out.1.idx == idx)
            && (out.1.DataBuffered? ==> out.1.idx == idx)
            && (out.1.ChannelFault? ==>
                  out.1.idx == idx && out.1.ids == ChannelIds(slot.local, pkt.arg0)
                  && (out.1.opening <==> slot.state == Opening))
            && !out.1.StrayReady?
  {
  }

  lemma GotOpen(s: State, t: Task, pkt: Packet)
    requires OpenLocal(s, t) && t.pc == R(RGot(pkt))
    ensures OpenLaw(s, t, StepGot(s, t, pkt))
  {
    hide Dispatch, Touched, Sound, AcceptOpenReady, ApplyReady;
    DispatchNames(s.table, s.handed, pkt);
    TouchedNeutral(s.table, s.handed, pkt);
    var out := Dispatch(s.table, pkt);
    if out.1.CreditGranted? {
      var idx := out.1.idx;
      assert SlotAnswer(s.table.slots[idx], s.books[idx], s.answers, s.handed);
      ReadyOpens(s.table.slots[idx].value, pkt);
    }
  }

  lemma ReadyOpens(slot: Slot, pkt: Packet)
    ensures var a := AcceptOpenReady(slot, pkt.arg0, pkt.data);
            a.Some? ==>
              a.value.state == Open && a.value.remote == Some(pkt.arg0) && a.value.local == slot.local
              && a.value.failed == slot.failed
    ensures var a := ApplyReady(slot, pkt.data);
            a.Some? ==> a.value.failed == slot.failed && a.value.remote == slot.remote
  {
  }

  lemma ActOpen(s: State, t: Task, r: RPc, pick: Pick)
    requires OpenLocal(s, t) && t.pc == R(r) && r.RAct?
    ensures OpenLaw(s, t, StepAct(s, t, r.outcome, r.answer, r.from, pick))
  {
    hide SlotAnswer, TableShape, OpenLaw, CloseRemote;
    if r.outcome.CancelPendingOpen? {
      CancelOpen(s, t, r);
    } else {
      PlainOpen(s, t, StepAct(s, t, r.outcome, r.answer, r.from, pick));
    }
  }

  /** A slot the device closes by its own id stays the channel it was. */
  lemma CancelOpen(s: State, t: Task, r: RPc)
    requires OpenLocal(s, t) && t.pc == R(r) && r.RAct? && r.outcome.CancelPendingOpen?
    ensures OpenLaw(s, t, StepAct(s, t, r.outcome, r.answer, r.from, Run))
  {
    hide SlotAnswer, TableShape, OpenerAt, AcceptedAt;
  }

  lemma FailOpen(s: State, t: Task, r: RPc)
    requires OpenLocal(s, t) && t.pc == R(r) && r.RFail?
    ensures OpenLaw(s, t, StepFail(s, t, r.idx, r.ids, r.fault, r.cause))
  {
    if Get(s.table, ChannelId(r.idx, r.ids.local)).Some? {
      assert SlotAnswer(s.table.slots[r.idx], s.books[r.idx], s.answers, s.handed);
    }
  }

  lemma OweOpen(s: State, t: Task, d: Debt)
    requires OpenLocal(s, t) && t.pc == R(ROwe(d))
    ensures OpenLaw(s, t, StepOwe(t, d))
  {
    hide SlotAnswer, TableShape;
  }

  lemma ReaderOpen(s: State, t: Task, r: RPc, pick: Pick)
    requires OpenLocal(s, t) && t.pc == R(r) && ReaderStep(s, t, r, pick).Some?
    ensures OpenLaw(s, t, ReaderStep(s, t, r, pick).value)
  {
    hide StepGot, StepAct, StepFail, StepOwe, OpenLaw;
    if r.RGot? { GotOpen(s, t, r.pkt); }
    else if r.RAct? { ActOpen(s, t, r, pick); }
    else if r.RFail? { FailOpen(s, t, r); }
    else if r.ROwe? { OweOpen(s, t, r.debt); }
    else { PlainOpen(s, t, ReaderStep(s, t, r, pick).value); }
  }

  lemma StepOpens(s: State, i: nat, pick: Pick)
    requires Basic(s) && OpenInv(s) && i < |s.tasks| && Step(s, i, pick).Some?
    ensures OpenLaw(s, s.tasks[i], Step(s, i, pick).value)
  {
    hide WriterStep, LockStep, OpenerStep, CloserStep, TakerStep, ReaderStep, StartStep, Apply, OpenLaw, OpenLocal;
    var t := s.tasks[i];
    assert TaskShape(t, |s.table.slots|, s.table.nextLocalId, s.handed);
    OpenIsLocal(s, i);
    var e := Step(s, i, pick).value;
    match t.pc {
      case Rest => StartOpen(s, t, pick);
      case WakeRest(_) => PlainOpen(s, t, e);
      case AFree => FreeOpen(s, t);
      case W(w) => WriterOpen(s, i, t, w, pick);
      case L(l) => LockOpen(s, t, l, pick);
      case O(o) => OpenerOpen(s, t, o, pick);
      case C(c) => CloserOpen(s, t, c);
      case D(d) => TakerOpen(s, t, d, pick);
      case R(r) => ReaderOpen(s, t, r, pick);
    }
  }

  lemma StepKeepsOpen(s: State, i: nat, pick: Pick)
    requires Basic(s) && OpenInv(s) && i < |s.tasks| && Step(s, i, pick).Some?
    ensures OpenInv(Next(s, i, pick))
  {
    hide Step, Apply, Lawful, OpenLaw, OpenInv;
    StepLawful(s, i, pick);
    StepOpens(s, i, pick);
    ApplyKeepsOpen(s, i, Step(s, i, pick).value);
  }

  /**
   A READY is noted as handed over only when its opener looks at its slot and
   hands the channel over, together with whether the slot has failed by then.
   */
  lemma GivenAtLook(s: State, i: nat, pick: Pick, s1: State, r: nat)
    requires Basic(s) && OpenInv(s) && i < |s.tasks| && Step(s, i, pick).Some? && s1 == Next(s, i, pick)
    requires r < |s.answers| && r < |s1.answers| && s1.answers[r].given != s.answers[r].given
    ensures s.tasks[i].pc == O(OLook) && s.answers[r].given.None? && Get(s.table, s.tasks[i].ch).Some?
    ensures var slot := Get(s.table, s.tasks[i].ch).value;
            && Ids(slot) == Some(s.answers[r].ids) && s1.answers[r].given == Some(IsFailed(slot))
            && slot.local in s1.handed
  {
    hide Step, OpenInv, Basic, OwnerLaw, PlainNote, NewLaw, FateLaw, Charges, ChangeTable, ChangeLines, ChangeBooks;
    StepOpens(s, i, pick);
  }

  /** And whenever an opener hands its channel over, that READY is noted. */
  lemma LookGives(s: State, i: nat)
    requires Basic(s) && OpenInv(s) && i < |s.tasks| && s.tasks[i].pc == O(OLook) && StepLook(s, s.tasks[i]).hand
    ensures Get(s.table, s.tasks[i].ch).Some? && s.tasks[i].ch.slot < |s.books|
    ensures var slot := Get(s.table, s.tasks[i].ch).value;
            var book := s.books[s.tasks[i].ch.slot];
            && book.answer.Some? && book.answer.value < |s.answers|
            && StepLook(s, s.tasks[i]).note == HandOver(book.answer.value, IsFailed(slot))
  {
    hide TableShape, AcceptedOpen, SlotAnswer, Owned, DebtNames, ReaderAt, AnswerAt, AcceptedAt, NotGiven;
    assert TaskShape(s.tasks[i], |s.table.slots|, s.table.nextLocalId, s.handed);
    assert OpenerAt(s.tasks[i], s.table, s.books, s.answers);
    if Get(s.table, s.tasks[i].ch).Some? { SlotAt(s.table, s.handed, s.tasks[i].ch.slot); }
  }
}
