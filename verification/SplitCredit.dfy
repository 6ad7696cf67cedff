/** Send credit is conserved under every interleaving. */
module SplitCredit {
  import opened Prelude
  import opened SendQueues
  import opened Slots
  import opened ChannelTables
  import opened SplitMachine
  import opened SplitInvariants
  import opened SplitBasic

  // ---- sums over the calls ----

  lemma {:induction false} SumPut(tasks: seq<Task>, i: nat, t: Task, m: Measure)
    requires i < |tasks|
    ensures Sum(tasks[i := t], m) == Sum(tasks, m) - Weigh(m, tasks[i]) + Weigh(m, t)
  {
    var after := tasks[i := t];
    var last := |tasks| - 1;
    if i == last {
      assert after[..last] == tasks[..last];
    } else {
      assert after[..last] == tasks[..last][i := t];
      SumPut(tasks[..last], i, t, m);
    }
  }

  lemma {:induction false} SumZero(tasks: seq<Task>, m: Measure)
    requires forall i :: 0 <= i < |tasks| ==> Weigh(m, tasks[i]) == 0
    ensures Sum(tasks, m) == 0
  {
    if tasks != [] { SumZero(tasks[..|tasks| - 1], m); }
  }

  lemma {:induction false} SumAtLeast(tasks: seq<Task>, i: nat, m: Measure)
    requires i < |tasks|
    ensures Weigh(m, tasks[i]) <= Sum(tasks, m)
  {
    if i < |tasks| - 1 { SumAtLeast(tasks[..|tasks| - 1], i, m); }
  }

  // ---- what one step may do to one channel's books ----

  /** Task `t` becomes `u` while the channel's slot and book change: the books still balance. */
  ghost predicate Balanced(before: Slot, after: Slot, ob: Book, nb: Book, t: Task, u: Task, ch: ChannelId) {
    && after.local == before.local && after.policy == before.policy
    && after.queue.sending - before.queue.sending == Weigh(Guards(ch), u) - Weigh(Guards(ch), t)
    && (before.policy.ack == Delayed && 0 <= before.sendBudget ==>
          && 0 <= after.sendBudget
          && nb.granted - ob.granted + nb.takenBack - ob.takenBack ==
             after.sendBudget - before.sendBudget + Weigh(Unsent(ch), u) - Weigh(Unsent(ch), t) + nb.sent - ob.sent)
    && (Tidy(nb) ==> Tidy(ob))
    && (before.policy.ack == Classic && Tidy(ob) ==>
          (if after.wrteAcked then 1 else 0) - (if before.wrteAcked then 1 else 0)
          + Weigh(Tokens(ch), u) - Weigh(Tokens(ch), t) + nb.outstanding - ob.outstanding == if Tidy(nb) then 0 else 1)
    && (after.state == Opening ==> before.state == Opening && nb == ob)
  }

  lemma BalancedKeeps(before: Slot, after: Slot, idx: nat, ob: Book, nb: Book, tasks: seq<Task>, i: nat, u: Task)
    requires i < |tasks| && CreditAt(Some(before), idx, tasks, ob)
    requires Balanced(before, after, ob, nb, tasks[i], u, ChannelId(idx, before.local))
    ensures CreditAt(Some(after), idx, tasks[i := u], nb)
  {
    var ch := ChannelId(idx, before.local);
    SumPut(tasks, i, u, Guards(ch));
    SumPut(tasks, i, u, Unsent(ch));
    SumPut(tasks, i, u, Tokens(ch));
  }

  /** A new channel starts with nobody holding credit on it. */
  ghost predicate FreshBook(slot: Slot, book: Book) {
    && slot.queue.sending == 0 && Tidy(book)
    && (slot.policy.ack == Delayed ==> 0 <= slot.sendBudget == book.granted && book.sent == book.takenBack == 0)
    && (slot.policy.ack == Classic ==> slot.wrteAcked && book.outstanding == 0)
    && (slot.state == Opening ==> book == BLANK)
  }

  /** The guards a step's call holds stay on its own channel, and each channel it touches stays balanced. */
  ghost predicate CreditLaw(s: State, t: Task, e: Effect)
    requires |s.books| == |s.table.slots|
  {
    var s1 := (ChangeTable(s.table, e.table), ChangeBooks(s.books, e.book));
    && |s1.0.slots| == |s.table.slots|
    && (e.task.credit.Some? ==> e.task.ch == t.ch)
    && (e.book.SetBook? && !e.table.Add? ==>
          (e.table.SetAt? && e.table.idx == e.book.idx)
          || (e.table.SameTable? && e.book.idx == t.ch.slot && Get(s.table, t.ch).Some?))
    && (e.table.Add? ==> e.table.ch.slot < |s.books| && e.book.SetBook? && e.book.idx == e.table.ch.slot
                         && FreshBook(e.table.slot, e.book.book)
                         && t.credit.None? && e.task.credit.None?)
    && (e.table.SetAt? && e.table.idx < |s.books| && s.table.slots[e.table.idx].Some? ==>
          var before := s.table.slots[e.table.idx].value;
          Balanced(before, e.table.slot, s.books[e.table.idx], s1.1[e.table.idx], t, e.task,
                   ChannelId(e.table.idx, before.local)))
    && (!(e.table.SetAt? && e.table.idx == t.ch.slot) && Get(s.table, t.ch).Some? && !e.table.Add? && !e.table.Drop? ==>
          var before := Get(s.table, t.ch).value;
          Balanced(before, before, s.books[t.ch.slot], s1.1[t.ch.slot], t, e.task, t.ch))
    && (e.table.Drop? ==> e.book.SameBook? && t.credit.None? && e.task.credit.None?)
    && (e.book.SetBook? && e.book.idx < |s.books| && Tidy(s.books[e.book.idx]) && !Tidy(e.book.book) ==>
          Untidies(s, t, e.book.idx))
  }

  /**
   The two steps that give a channel a second go-ahead: an OKAY arrives with no
   WRTE to OKAY while one is reserved, or a WRTE the device has is refunded while
   its channel has no free go-ahead, because its OKAY has not come or because
   another writer has reserved the go-ahead that OKAY gave.
   */
  ghost predicate Untidies(s: State, t: Task, idx: nat) {
    && idx < |s.table.slots| && idx < |s.books| && s.table.slots[idx].Some?
    && var slot := s.table.slots[idx].value;
    && !slot.wrteAcked
    && (|| (&& t.pc.R? && t.pc.r.RGot? && t.pc.r.pkt.command == Ready && t.pc.r.pkt.arg1 == slot.local
            && !IsFailed(slot) && s.books[idx].outstanding == 0)
        || (t.pc == W(WRefund) && t.ch == ChannelId(idx, slot.local) && t.credit.Some? && t.credit.value.spent))
  }

  lemma ApplyKeepsCredit(s: State, i: nat, e: Effect)
    requires Basic(s) && CreditInv(s) && i < |s.tasks|
    requires Lawful(s, s.tasks[i], e) && CreditLaw(s, s.tasks[i], e)
    ensures CreditInv(Apply(s, i, e))
  {
    hide PcShape, Balanced, Sum, Weigh, CreditAt;
    var s1 := Apply(s, i, e);
    forall idx | 0 <= idx < |s1.books| ensures CreditAt(s1.table.slots[idx], idx, s1.tasks, s1.books[idx]) {
      CreditKeptAt(s, i, e, idx);
    }
  }

  lemma FreshAt(s: State, i: nat, e: Effect, idx: nat)
    requires Basic(s) && i < |s.tasks| && idx < |s.books|
    requires Lawful(s, s.tasks[i], e) && CreditLaw(s, s.tasks[i], e)
    requires e.table.Add? && e.table.ch.slot == idx
    ensures CreditAt(Some(e.table.slot), idx, s.tasks[i := e.task], e.book.book)
  {
    hide PcShape;
    var tasks := s.tasks[i := e.task];
    var ch := ChannelId(idx, e.table.slot.local);
    forall j | 0 <= j < |tasks| ensures tasks[j].credit.None? || tasks[j].ch != ch {
      assert TaskShape(s.tasks[j], |s.table.slots|, s.table.nextLocalId, s.handed);
      if s.tasks[j].credit.Some? { CreditMeansWriter(s.tasks[j]); }
    }
    SumZero(tasks, Guards(ch));
    SumZero(tasks, Unsent(ch));
    SumZero(tasks, Tokens(ch));
  }

  /** A channel the step does not touch, or touches as the law allows. */
  lemma StaysBalanced(s: State, i: nat, e: Effect, idx: nat)
    requires i < |s.tasks| && |s.books| == |s.table.slots| && idx < |s.books| && CreditLaw(s, s.tasks[i], e)
    requires !(e.table.Add? && e.table.ch.slot == idx) && TableLaw(s.table, s.handed, e.table)
    requires Apply(s, i, e).table.slots[idx].Some?
    ensures s.table.slots[idx].Some?
    ensures Balanced(s.table.slots[idx].value, Apply(s, i, e).table.slots[idx].value,
                     s.books[idx], Apply(s, i, e).books[idx], s.tasks[i], e.task,
                     ChannelId(idx, s.table.slots[idx].value.local))
  {
    var t := s.tasks[i];
    var ch := ChannelId(idx, s.table.slots[idx].value.local);
    if !(e.table.SetAt? && e.table.idx == idx) && !(t.ch == ch && !e.table.Add? && !e.table.Drop?) {
      assert Weigh(Guards(ch), t) == Weigh(Guards(ch), e.task) == 0;
      assert Weigh(Unsent(ch), t) == Weigh(Unsent(ch), e.task) == 0;
      assert Weigh(Tokens(ch), t) == Weigh(Tokens(ch), e.task) == 0;
    }
  }

  lemma CreditKeptAt(s: State, i: nat, e: Effect, idx: nat)
    requires Basic(s) && CreditInv(s) && i < |s.tasks| && idx < |s.books|
    requires Lawful(s, s.tasks[i], e) && CreditLaw(s, s.tasks[i], e)
    ensures var s1 := Apply(s, i, e);
            |s1.books| == |s1.table.slots| == |s.books| && CreditAt(s1.table.slots[idx], idx, s1.tasks, s1.books[idx])
  {
    hide PcShape, Balanced, TableShape, TasksShape, TaskLaw;
    var s1 := Apply(s, i, e);
    if e.table.Add? && e.table.ch.slot == idx {
      FreshAt(s, i, e, idx);
    } else if s1.table.slots[idx].Some? {
      StaysBalanced(s, i, e, idx);
      assert CreditAt(s.table.slots[idx], idx, s.tasks, s.books[idx]);
      BalancedKeeps(s.table.slots[idx].value, s1.table.slots[idx].value, idx, s.books[idx], s1.books[idx],
                    s.tasks, i, e.task);
    }
  }

  lemma CreditMeansWriter(t: Task)
    requires PcShape(t) && t.credit.Some?
    ensures t.kind.WriterCall?
  {
  }

  // ---- every step obeys the law ----

  /** While somebody reserves or the device has a WRTE to OKAY, the token is not free. */
  ghost predicate TokenTaken(s: State, t: Task) {
    && (t.credit.Some? && Get(s.table, t.ch).Some? ==>
          && Get(s.table, t.ch).value.queue.sending > 0
          && (!t.credit.value.spent && t.ch.slot < |s.books| && Tidy(s.books[t.ch.slot])
              && s.table.policy.ack == Classic ==>
                !Get(s.table, t.ch).value.wrteAcked))
    && (forall idx :: 0 <= idx < |s.books| && idx < |s.table.slots| && s.table.slots[idx].Some?
                      && s.table.policy.ack == Classic && Tidy(s.books[idx]) && s.books[idx].outstanding > 0 ==>
          !s.table.slots[idx].value.wrteAcked)
  }

  lemma TokenIsTaken(s: State, i: nat)
    requires Basic(s) && CreditInv(s) && i < |s.tasks|
    ensures TokenTaken(s, s.tasks[i])
  {
    var t := s.tasks[i];
    if Get(s.table, t.ch).Some? {
      assert CreditAt(s.table.slots[t.ch.slot], t.ch.slot, s.tasks, s.books[t.ch.slot]);
      SumAtLeast(s.tasks, i, Guards(t.ch));
      SumAtLeast(s.tasks, i, Tokens(t.ch));
    }
  }

  ghost predicate Local(s: State, t: Task) {
    && Shaped(s) && TableShape(s.table, s.handed)
    && TaskShape(t, |s.table.slots|, s.table.nextLocalId, s.handed)
    && TokenTaken(s, t)
  }

  /** A step that leaves tables, books and reservations alone. */
  lemma PlainCredit(s: State, t: Task, e: Effect)
    requires |s.books| == |s.table.slots|
    requires e.table.SameTable? && e.book.SameBook? && e.task.credit == t.credit
    requires t.credit.Some? ==> e.task.ch == t.ch
    ensures CreditLaw(s, t, e)
  {
  }

  /** A slot change that concerns neither credit nor queue. */
  ghost predicate Neutral(before: Slot, after: Slot) {
    && after.local == before.local && after.policy == before.policy && after.queue == before.queue
    && after.sendBudget == before.sendBudget && after.wrteAcked == before.wrteAcked
    && (after.state == Opening ==> before.state == Opening)
  }

  lemma NeutralCredit(s: State, t: Task, e: Effect)
    requires |s.books| == |s.table.slots|
    requires e.table.SetAt? && e.table.idx < |s.books| && s.table.slots[e.table.idx].Some?
    requires Neutral(s.table.slots[e.table.idx].value, e.table.slot)
    requires e.book.SameBook? && t.credit.None? && e.task.credit.None?
    ensures CreditLaw(s, t, e)
  {
  }

  /** A slot and its book change together, and balance. */
  lemma BookedCredit(s: State, t: Task, e: Effect)
    requires |s.books| == |s.table.slots|
    requires e.table.SetAt? && e.table.idx < |s.books| && s.table.slots[e.table.idx].Some?
    requires t.credit.None? && e.task.credit.None? && e.book.SetBook? && e.book.idx == e.table.idx
    requires var before := s.table.slots[e.table.idx].value;
             Balanced(before, e.table.slot, s.books[e.table.idx], e.book.book, t, t,
                      ChannelId(e.table.idx, before.local))
    requires Tidy(s.books[e.table.idx]) && !Tidy(e.book.book) ==> Untidies(s, t, e.table.idx)
    ensures CreditLaw(s, t, e)
  {
  }

  lemma SeatCredit(s: State, i: nat, t: Task, w: WPc)
    requires Local(s, t) && t.pc == W(w) && (w.WNext? || w.WLeave?)
    ensures CreditLaw(s, t, WriterStep(s, i, t, w, Run).value)
  {
    hide Serve, Leave, Enqueue, StepTry, TokenTaken, TableShape;
    if Get(s.table, t.ch).Some? {
      SendingCounts(Get(s.table, t.ch).value.queue, if t.seat.Some? then t.seat.value.place else 0);
    }
  }

  lemma TryCredit(s: State, t: Task)
    requires Local(s, t) && t.pc == W(WTry)
    ensures CreditLaw(s, t, StepTry(s, t))
  {
    hide Serve, TokenTaken;
    if Get(s.table, t.ch).Some? {
      SendingCounts(Get(s.table, t.ch).value.queue, 0);
    }
  }

  lemma RefundCredit(s: State, t: Task)
    requires Local(s, t) && t.pc == W(WRefund)
    ensures CreditLaw(s, t, StepRefund(s, t))
  {
    if Get(s.table, t.ch).Some? { SlotAt(s.table, s.handed, t.ch.slot); }
    hide TableShape;
  }

  lemma CommitCredit(s: State, t: Task)
    requires Local(s, t) && t.pc == W(WCommit)
    ensures CreditLaw(s, t, StepCommit(s, t))
  {
    hide TableShape;
  }

  lemma WriterCredit(s: State, i: nat, t: Task, w: WPc, pick: Pick)
    requires Local(s, t) && t.pc == W(w) && WriterStep(s, i, t, w, pick).Some?
    ensures CreditLaw(s, t, WriterStep(s, i, t, w, pick).value)
  {
    hide CreditLaw, StepNext, StepTry, StepLeave, StepRefund, StepCommit, TokenTaken;
    match w {
      case WNext => SeatCredit(s, i, t, w);
      case WLeave => SeatCredit(s, i, t, w);
      case WTry => TryCredit(s, t);
      case WRefund => RefundCredit(s, t);
      case WCommit => CommitCredit(s, t);
      case _ => PlainCredit(s, t, WriterStep(s, i, t, w, pick).value);
    }
  }

  lemma ReachCredit(s: State, t: Task, stamp: nat)
    requires Local(s, t) && t.pc == L(Send(stamp))
    ensures CreditLaw(s, t, StepReach(s, t, stamp))
  {
  }

  lemma HeldCredit(s: State, t: Task, stamp: nat)
    requires Local(s, t) && t.pc == L(Held(stamp))
    ensures CreditLaw(s, t, StepHeld(s, t, stamp))
  {
    hide CreditLaw;
    var e := StepHeld(s, t, stamp);
    if e.table.SetAt? { NeutralCredit(s, t, e); } else { PlainCredit(s, t, e); }
  }

  lemma LockCredit(s: State, t: Task, l: LPc, pick: Pick)
    requires Local(s, t) && t.pc == L(l) && LockStep(s, t, l, pick).Some?
    ensures CreditLaw(s, t, LockStep(s, t, l, pick).value)
  {
    hide CreditLaw, StepHeld, StepReach, TokenTaken;
    if l.Held? && pick == Run { HeldCredit(s, t, l.stamp); }
    else if l.Send? && pick == Run { ReachCredit(s, t, l.stamp); }
    else { PlainCredit(s, t, LockStep(s, t, l, pick).value); }
  }

  lemma DropCredit(s: State, t: Task, e: Effect)
    requires |s.books| == |s.table.slots|
    requires e.table.Drop? && e.book.SameBook? && t.credit.None? && e.task.credit.None?
    ensures CreditLaw(s, t, e)
  {
  }

  lemma OpenerCredit(s: State, t: Task, o: OPc, pick: Pick)
    requires Local(s, t) && t.pc == O(o) && OpenerStep(s, t, o, pick).Some?
    ensures CreditLaw(s, t, OpenerStep(s, t, o, pick).value)
  {
    hide TokenTaken, TableShape, WaitingAnswer;
    var e := OpenerStep(s, t, o, pick).value;
    if e.table.SameTable? { hide CreditLaw; PlainCredit(s, t, e); }
    else if e.table.Drop? { hide CreditLaw; DropCredit(s, t, e); }
  }

  lemma CloserCredit(s: State, t: Task, c: CPc)
    requires Local(s, t) && t.pc == C(c)
    ensures CreditLaw(s, t, CloserStep(s, t, c))
  {
    hide CreditLaw, TokenTaken, TableShape;
    var e := CloserStep(s, t, c);
    if e.table.SameTable? { PlainCredit(s, t, e); } else { DropCredit(s, t, e); }
  }

  lemma TakerCredit(s: State, t: Task, d: DPc, pick: Pick)
    requires Local(s, t) && t.pc == D(d) && TakerStep(s, t, d, pick).Some?
    ensures CreditLaw(s, t, TakerStep(s, t, d, pick).value)
  {
    hide CreditLaw, TokenTaken;
    var e := TakerStep(s, t, d, pick).value;
    if e.table.SameTable? { PlainCredit(s, t, e); } else { NeutralCredit(s, t, e); }
  }

  lemma StartCredit(s: State, t: Task, pick: Pick)
    requires Local(s, t) && t.pc == Rest && StartStep(s, pick).Some?
    ensures CreditLaw(s, t, StartStep(s, pick).value)
  {
    hide TokenTaken, TableShape;
  }

  /** Only a READY moves credit. */
  lemma OnSlotNeutral(idx: nat, slot: Slot, pkt: Packet)
    requires Sound(slot) && pkt.command in {Write, Ready, Close}
    ensures var out := OnSlot(idx, slot, pkt);
            !out.1.CreditGranted? ==> Neutral(slot, out.0)
    ensures var out := OnSlot(idx, slot, pkt);
            out.1.CreditGranted? ==>
              && pkt.command == Ready && out.1.idx == idx && !IsFailed(slot)
              && Some(out.0) == if slot.state == Opening then AcceptOpenReady(slot, pkt.arg0, pkt.data)
                                else ApplyReady(slot, pkt.data)
  {
  }

  lemma TouchedNeutral(table: Table, handed: set<nat>, pkt: Packet)
    requires TableShape(table, handed)
    ensures var out := Dispatch(table, pkt);
            var c := Touched(table, out);
            && (out.1.CreditGranted? ==>
                  && c.SetAt? && c.idx == out.1.idx < |table.slots| && table.slots[c.idx].Some?
                  && pkt.command == Ready && pkt.arg1 == table.slots[c.idx].value.local
                  && !IsFailed(table.slots[c.idx].value)
                  && var slot := table.slots[c.idx].value;
                     Some(c.slot) == if slot.state == Opening then AcceptOpenReady(slot, pkt.arg0, pkt.data)
                                     else ApplyReady(slot, pkt.data))
            && (!out.1.CreditGranted? ==>
                  c.SameTable? || (c.SetAt? && c.idx < |table.slots| && table.slots[c.idx].Some?
                                   && Neutral(table.slots[c.idx].value, c.slot)))
  {
    if pkt.command in {Write, Ready, Close} && !(pkt.command == Close && pkt.arg1 == 0) {
      var found := FindLocal(table.slots, pkt.arg1);
      if found.Some? {
        hide OnSlot;
        OnSlotNeutral(found.value, table.slots[found.value].value, pkt);
      }
    }
  }

  lemma ReadyBalances(s: State, t: Task, idx: nat, after: Slot, pkt: Packet)
    requires Local(s, t) && t.credit.None? && idx < |s.books| && s.table.slots[idx].Some?
    requires var slot := s.table.slots[idx].value;
             Some(after) == if slot.state == Opening then AcceptOpenReady(slot, pkt.arg0, pkt.data)
                            else ApplyReady(slot, pkt.data)
    requires s.table.slots[idx].value.state == Opening ==> s.books[idx] == BLANK
    ensures var slot := s.table.slots[idx].value;
            Balanced(slot, after, s.books[idx], Credited(s, idx, slot, pkt), t, t, ChannelId(idx, slot.local))
  {
  }

  lemma ReadyUntidies(s: State, idx: nat, pkt: Packet)
    requires idx < |s.books| && idx < |s.table.slots| && s.table.slots[idx].Some?
    ensures var slot := s.table.slots[idx].value;
            Tidy(s.books[idx]) && !Tidy(Credited(s, idx, slot, pkt)) ==>
              !slot.wrteAcked && s.books[idx].outstanding == 0
  {
  }

  lemma GotCredit(s: State, t: Task, pkt: Packet)
    requires Local(s, t) && t.pc == R(RGot(pkt)) && CreditInv(s)
    ensures CreditLaw(s, t, StepGot(s, t, pkt))
  {
    hide Dispatch, Touched, PcShape, AcceptOpenReady, ApplyReady, Balanced, Credited;
    TouchedNeutral(s.table, s.handed, pkt);
    CreditOfReader(t);
    var e := StepGot(s, t, pkt);
    hide CreditLaw;
    if Dispatch(s.table, pkt).1.CreditGranted? {
      var idx := e.table.idx;
      assert CreditAt(s.table.slots[idx], idx, s.tasks, s.books[idx]);
      ReadyBalances(s, t, idx, e.table.slot, pkt);
      ReadyUntidies(s, idx, pkt);
      BookedCredit(s, t, e);
    } else if e.table.SetAt? {
      NeutralCredit(s, t, e);
    } else {
      PlainCredit(s, t, e);
    }
  }

  lemma CreditOfReader(t: Task)
    requires PcShape(t) && t.pc.R?
    ensures t.credit.None?
  {
  }

  lemma ReaderCredit(s: State, t: Task, r: RPc, pick: Pick)
    requires Local(s, t) && t.pc == R(r) && ReaderStep(s, t, r, pick).Some? && CreditInv(s)
    ensures CreditLaw(s, t, ReaderStep(s, t, r, pick).value)
  {
    hide StepGot, StepAct, StepFail, CreditLaw, TokenTaken;
    var e := ReaderStep(s, t, r, pick).value;
    if r.RGot? { GotCredit(s, t, r.pkt); }
    else if r.RAct? || r.RFail? { FaultCredit(s, t, r, pick); }
    else if e.table.SameTable? { PlainCredit(s, t, e); }
    else { NeutralCredit(s, t, e); }
  }

  lemma FaultCredit(s: State, t: Task, r: RPc, pick: Pick)
    requires Local(s, t) && t.pc == R(r) && |s.books| == |s.table.slots|
    ensures r.RAct? ==> CreditLaw(s, t, StepAct(s, t, r.outcome, r.answer, r.from, pick))
    ensures r.RFail? ==> CreditLaw(s, t, StepFail(s, t, r.idx, r.ids, r.fault, r.cause))
  {
    hide CreditLaw, TokenTaken, WaitingAnswer;
    if r.RAct? {
      var e := StepAct(s, t, r.outcome, r.answer, r.from, pick);
      if e.table.SameTable? { PlainCredit(s, t, e); } else { NeutralCredit(s, t, e); }
    } else if r.RFail? {
      var e := StepFail(s, t, r.idx, r.ids, r.fault, r.cause);
      if e.table.SameTable? { PlainCredit(s, t, e); } else { NeutralCredit(s, t, e); }
    }
  }

  lemma StepCredits(s: State, i: nat, pick: Pick)
    requires Basic(s) && CreditInv(s) && i < |s.tasks| && Step(s, i, pick).Some?
    ensures CreditLaw(s, s.tasks[i], Step(s, i, pick).value)
  {
    hide WriterStep, LockStep, OpenerStep, CloserStep, TakerStep, ReaderStep, StartStep, CreditLaw;
    var t := s.tasks[i];
    assert TaskShape(t, |s.table.slots|, s.table.nextLocalId, s.handed);
    TokenIsTaken(s, i);
    var e := Step(s, i, pick).value;
    match t.pc {
      case Rest => StartCredit(s, t, pick);
      case WakeRest(_) => PlainCredit(s, t, e);
      case AFree => DropCredit(s, t, e);
      case W(w) => WriterCredit(s, i, t, w, pick);
      case L(l) => LockCredit(s, t, l, pick);
      case O(o) => OpenerCredit(s, t, o, pick);
      case C(c) => CloserCredit(s, t, c);
      case D(d) => TakerCredit(s, t, d, pick);
      case R(r) => ReaderCredit(s, t, r, pick);
    }
  }

  lemma StepKeepsCredit(s: State, i: nat, pick: Pick)
    requires Basic(s) && CreditInv(s) && i < |s.tasks| && Step(s, i, pick).Some?
    ensures CreditInv(Next(s, i, pick))
  {
    hide Step, Apply, Lawful, CreditLaw, CreditInv;
    StepLawful(s, i, pick);
    StepCredits(s, i, pick);
    ApplyKeepsCredit(s, i, Step(s, i, pick).value);
  }

  // ---- and the two steps that untidy a book do so ----

  lemma ReadyGrants(s: State, t: Task, pkt: Packet, idx: nat)
    requires Local(s, t) && t.pc == R(RGot(pkt)) && Untidies(s, t, idx)
    requires s.table.slots[idx].value.policy.ack == Classic
    ensures Dispatch(s.table, pkt).1 == CreditGranted(idx)
  {
    var slot := s.table.slots[idx].value;
    SlotAt(s.table, s.handed, idx);
    assert Ours(s.table.slots[idx], pkt.arg1);
    assert FindLocal(s.table.slots, pkt.arg1) == Some(idx);
    assert OnSlot(idx, slot, pkt) == (slot.(wrteAcked := true), CreditGranted(idx));
  }

  lemma GotUntidies(s: State, t: Task, pkt: Packet, idx: nat)
    requires Local(s, t) && t.pc == R(RGot(pkt)) && Untidies(s, t, idx)
    requires s.table.slots[idx].value.policy.ack == Classic
    ensures !Tidy(ChangeBooks(s.books, StepGot(s, t, pkt).book)[idx])
  {
    ReadyGrants(s, t, pkt, idx);
    SlotAt(s.table, s.handed, idx);
    hide Dispatch, Touched, TableShape, TokenTaken;
  }

  lemma RefundUntidies(s: State, t: Task, idx: nat)
    requires Local(s, t) && t.pc == W(WRefund) && Untidies(s, t, idx)
    ensures !Tidy(ChangeBooks(s.books, StepRefund(s, t).book)[idx])
  {
  }

  /** The converse of the law's last clause. */
  lemma UntidiesBooks(s: State, i: nat, pick: Pick, idx: nat)
    requires Basic(s) && CreditInv(s) && i < |s.tasks| && Step(s, i, pick).Some? && Untidies(s, s.tasks[i], idx)
    requires s.table.slots[idx].value.policy.ack == Classic
    ensures !Tidy(ChangeBooks(s.books, Step(s, i, pick).value.book)[idx])
  {
    hide Tidy, ChangeBooks, StepGot, StepRefund, StepAct, StepFail, StepNext, StepTry, StepLeave, StepCommit;
    var t := s.tasks[i];
    assert TaskShape(t, |s.table.slots|, s.table.nextLocalId, s.handed);
    TokenIsTaken(s, i);
    if t.pc.R? { GotUntidies(s, t, t.pc.r.pkt, idx); } else { RefundUntidies(s, t, idx); }
  }
}
