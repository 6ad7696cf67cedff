/** Writers are served in the order they came. */
module SplitLine {
  import opened Prelude
  import opened SendQueues
  import opened Slots
  import opened ChannelTables
  import opened SplitMachine
  import opened SplitInvariants
  import opened SplitBasic
  import opened SplitCredit

  ghost predicate Ascending(line: seq<Ticket>) {
    forall a, b :: 0 <= a < b < |line| ==> line[a].no < line[b].no
  }

  lemma {:induction false} RemoveIs(line: seq<Ticket>, k: nat)
    requires k < |line| && Ascending(line)
    ensures RemoveTicket(line, line[k]) == line[..k] + line[k + 1..]
  {
    if k > 0 {
      assert line[1..][k - 1] == line[k];
      RemoveIs(line[1..], k - 1);
      assert line[..k] + line[k + 1..] == [line[0]] + (line[1..][..k - 1] + line[1..][k..]);
    }
  }

  // ---- what a step may do to seats and lines ----

  /** The same writers wait, however many are sending. */
  ghost predicate SameOrder(a: Queue, b: Queue) {
    a.head == b.head && a.tail == b.tail && a.gone == b.gone
  }

  /** No seat changes hands, and no queue moves. */
  ghost predicate Still(s: State, t: Task, e: Effect) {
    && e.line.SameLine?
    && (e.table.SetAt? && e.table.idx < |s.table.slots| && s.table.slots[e.table.idx].Some? ==>
          SameOrder(e.table.slot.queue, s.table.slots[e.table.idx].value.queue))
    && (e.table.Add? ==> e.table.slot.queue == EMPTY && e.task.seat.None?)
    && ((e.task.seat == t.seat && (t.seat.Some? ==> e.task.ch == t.ch))
        || (e.task.seat.None? && (t.seat.Some? ==> Get(s.table, t.ch).None?)))
  }

  ghost predicate Moves(s: State, t: Task, e: Effect, q: Queue) {
    && Get(s.table, t.ch).Some? && e.task.ch == t.ch
    && e.table.SetAt? && e.table.idx == t.ch.slot && e.table.slot.queue == q
  }

  ghost predicate LineLaw(s: State, i: nat, t: Task, e: Effect) {
    match e.line
    case SameLine => Still(s, t, e)
    case Join =>
      && Get(s.table, t.ch).Some? && t.seat.None?
      && var q := Get(s.table, t.ch).value.queue;
         Moves(s, t, e, Enqueue(q)) && e.task.seat == Some(Seat(q.tail, s.nextTicket))
    case ServeFirst =>
      && Get(s.table, t.ch).Some? && t.seat.Some? && e.task.seat.None?
      && var q := Get(s.table, t.ch).value.queue;
         Moves(s, t, e, Serve(q)) && t.seat.value.place == q.head
    case Quit(k) =>
      && Get(s.table, t.ch).Some? && t.seat.Some? && e.task.seat.None? && k == Ticket(t.seat.value.ticket, i)
      && var q := Get(s.table, t.ch).value.queue;
         Moves(s, t, e, Leave(q, t.seat.value.place))
  }

  /** Where a seated writer is in its channel's line, and in its queue. */
  lemma Position(s: State, i: nat) returns (k: nat)
    requires LineInv(s) && i < |s.tasks| && s.tasks[i].seat.Some? && Get(s.table, s.tasks[i].ch).Some?
    ensures var t := s.tasks[i];
            var q := Get(s.table, t.ch).value.queue;
            && Valid(q) && |s.lines[t.ch.slot]| == |Waiters(q)| && k < |Waiters(q)|
            && s.lines[t.ch.slot][k] == Ticket(t.seat.value.ticket, i)
            && Waiters(q)[k] == t.seat.value.place
  {
    var t := s.tasks[i];
    assert Listed(t, i, s.table, s.lines);
    var line := s.lines[t.ch.slot];
    assert LineAt(s.table.slots[t.ch.slot], t.ch.slot, line, s.tasks, s.nextTicket);
    k :| 0 <= k < |line| && line[k] == Ticket(t.seat.value.ticket, i);
    assert Sits(s.tasks[line[k].task], t.ch, Waiters(Get(s.table, t.ch).value.queue)[k], line[k].no);
  }

  // ---- each move keeps each line ----

  lemma OtherLine(s: State, i: nat, u: Task, idx: nat, entry: Option<Slot>, next: nat)
    requires i < |s.tasks| && idx < |s.lines| == |s.table.slots|
    requires LineAt(s.table.slots[idx], idx, s.lines[idx], s.tasks, s.nextTicket)
    requires s.nextTicket <= next
    requires entry.Some? ==>
               && s.table.slots[idx].Some? && entry.value.local == s.table.slots[idx].value.local
               && SameOrder(entry.value.queue, s.table.slots[idx].value.queue)
               && (s.tasks[i].seat.Some? && s.tasks[i].ch == ChannelId(idx, entry.value.local) ==>
                     u.seat == s.tasks[i].seat && u.ch == s.tasks[i].ch)
    ensures LineAt(entry, idx, s.lines[idx], s.tasks[i := u], next)
  {
  }

  lemma JoinLine(s: State, i: nat, u: Task, slot: Slot)
    requires i < |s.tasks| && |s.lines| == |s.table.slots| && Get(s.table, u.ch).Some?
    requires LineAt(s.table.slots[u.ch.slot], u.ch.slot, s.lines[u.ch.slot], s.tasks, s.nextTicket)
    requires s.tasks[i].seat.None? && slot.local == u.ch.local
    requires slot.queue == Enqueue(Get(s.table, u.ch).value.queue)
    requires u.seat == Some(Seat(Get(s.table, u.ch).value.queue.tail, s.nextTicket))
    ensures LineAt(Some(slot), u.ch.slot, s.lines[u.ch.slot] + [Ticket(s.nextTicket, i)], s.tasks[i := u],
                   s.nextTicket + 1)
  {
    hide Enqueue;
    EnqueueAppends(Get(s.table, u.ch).value.queue);
  }

  /** The k-th writer of a line goes; whoever waits behind it moves up. */
  lemma CutLine(s: State, i: nat, u: Task, slot: Slot, k: nat)
    requires i < |s.tasks| && |s.lines| == |s.table.slots| && s.tasks[i].seat.Some? && Get(s.table, s.tasks[i].ch).Some?
    requires var ch := s.tasks[i].ch; LineAt(s.table.slots[ch.slot], ch.slot, s.lines[ch.slot], s.tasks, s.nextTicket)
    requires slot.local == s.tasks[i].ch.local && u.seat.None?
    requires k < |s.lines[s.tasks[i].ch.slot]| && s.lines[s.tasks[i].ch.slot][k].task == i
    requires Valid(slot.queue)
    requires k < |Waiters(Get(s.table, s.tasks[i].ch).value.queue)|
    requires Waiters(slot.queue) == Without(Waiters(Get(s.table, s.tasks[i].ch).value.queue), k)
    ensures var ch := s.tasks[i].ch;
            LineAt(Some(slot), ch.slot, s.lines[ch.slot][..k] + s.lines[ch.slot][k + 1..], s.tasks[i := u],
                   s.nextTicket)
  {
    hide Waiters, Valid;
    var ch := s.tasks[i].ch;
    var whole := s.lines[ch.slot];
    var line := whole[..k] + whole[k + 1..];
    var q := Get(s.table, ch).value.queue;
    forall j | 0 <= j < |line|
      ensures && line[j].task < |s.tasks| && line[j].no < s.nextTicket
              && Sits(s.tasks[i := u][line[j].task], ch, Waiters(slot.queue)[j], line[j].no)
    {
      var was := if j < k then j else j + 1;
      assert line[j] == whole[was];
      assert Waiters(slot.queue)[j] == Waiters(q)[was];
      assert Sits(s.tasks[whole[was].task], ch, Waiters(q)[was], whole[was].no);
      assert Sits(s.tasks[i], ch, Waiters(q)[k], whole[k].no);
      if whole[was].task == i {
        assert false;
      }
    }
  }

  /** Serving or leaving takes exactly the caller's own ticket out of its line. */
  lemma CutAt(s: State, i: nat, e: Effect) returns (k: nat)
    requires LineInv(s) && i < |s.tasks| && (e.line.ServeFirst? || e.line.Quit?)
    requires LineLaw(s, i, s.tasks[i], e)
    ensures var t := s.tasks[i]; var line := s.lines[t.ch.slot]; var q := Get(s.table, t.ch).value.queue;
            && k < |line| == |Waiters(q)| && line[k].task == i
            && Valid(e.table.slot.queue) && Waiters(e.table.slot.queue) == Without(Waiters(q), k)
            && ChangeLine(line, e.line, Ticket(s.nextTicket, i)) == line[..k] + line[k + 1..]
  {
    hide Serve, Leave, Waiters, Valid;
    var t := s.tasks[i];
    var line := s.lines[t.ch.slot];
    var q := Get(s.table, t.ch).value.queue;
    assert LineAt(s.table.slots[t.ch.slot], t.ch.slot, line, s.tasks, s.nextTicket);
    k := Position(s, i);
    if e.line.ServeFirst? {
      TurnIsFirst(q);
      WaitersAre(q);
      assert k == 0;
      ServeDropsFirst(q);
      assert Without(Waiters(q), 0) == Waiters(q)[1..];
      assert line[..0] + line[1..] == line[1..];
    } else {
      LeaveRemoves(q, k);
      RemoveIs(line, k);
    }
  }

  /** The line of the call's own channel after the step. */
  lemma OwnLine(s: State, i: nat, e: Effect)
    requires Shaped(s) && LineInv(s) && i < |s.tasks| && !e.line.SameLine?
    requires TableLaw(s.table, s.handed, e.table) && LineLaw(s, i, s.tasks[i], e)
    ensures var idx := s.tasks[i].ch.slot; idx < |s.lines| == |s.table.slots|
    ensures var idx := s.tasks[i].ch.slot;
            var after := ChangeLine(s.lines[idx], e.line, Ticket(s.nextTicket, i));
            && LineAt(Some(e.table.slot), idx, after, s.tasks[i := e.task],
                      if e.line.Join? then s.nextTicket + 1 else s.nextTicket)
            && forall k :: k in s.lines[idx] && k.task != i ==> k in after
  {
    hide Serve, Leave, Enqueue, Waiters, Valid, LineAt;
    var t := s.tasks[i];
    var idx := t.ch.slot;
    var line := s.lines[idx];
    if e.line.Join? {
      JoinLine(s, i, e.task, e.table.slot);
    } else {
      var k := CutAt(s, i, e);
      CutLine(s, i, e.task, e.table.slot, k);
      var after := line[..k] + line[k + 1..];
      forall x | x in line && x.task != i ensures x in after {
        var j :| 0 <= j < |line| && line[j] == x;
        assert after[if j < k then j else j - 1] == x;
      }
    }
  }

  lemma ApplyKeepsLines(s: State, i: nat, e: Effect, idx: nat)
    requires Basic(s) && LineInv(s) && i < |s.tasks| && idx < |s.lines|
    requires Lawful(s, s.tasks[i], e) && LineLaw(s, i, s.tasks[i], e)
    ensures var s1 := Apply(s, i, e);
            |s1.lines| == |s1.table.slots| == |s.lines|
            && LineAt(s1.table.slots[idx], idx, s1.lines[idx], s1.tasks, s1.nextTicket)
  {
    hide PcShape, Serve, Leave, Enqueue, Waiters, Valid, TasksShape, TaskLaw;
    var t := s.tasks[i];
    var s1 := Apply(s, i, e);
    if !e.line.SameLine? && idx == t.ch.slot {
      OwnLine(s, i, e);
    } else if e.table.Add? && e.table.ch.slot == idx {
      EmptyQueue();
    } else {
      OtherLine(s, i, e.task, idx, s1.table.slots[idx], s1.nextTicket);
    }
  }

  // ---- every step obeys the law ----

  lemma SeatLine(s: State, i: nat, t: Task, w: WPc)
    requires Shaped(s) && PcShape(t) && t.pc == W(w) && (w.WNext? || w.WTry? || w.WLeave?)
    ensures LineLaw(s, i, t, WriterStep(s, i, t, w, Run).value)
  {
    hide Serve, Leave, Enqueue;
    match w {
      case WNext => hide StepTry, StepLeave;
      case WTry => hide StepNext, StepLeave;
      case _ => hide StepNext, StepTry;
    }
  }

  lemma WriterLine(s: State, i: nat, t: Task, w: WPc, pick: Pick)
    requires Shaped(s) && PcShape(t) && t.pc == W(w) && WriterStep(s, i, t, w, pick).Some?
    ensures LineLaw(s, i, t, WriterStep(s, i, t, w, pick).value)
  {
    hide StepNext, StepTry, StepLeave;
    if w.WNext? || w.WTry? || w.WLeave? { SeatLine(s, i, t, w); }
  }

  lemma LockLine(s: State, i: nat, t: Task, l: LPc, pick: Pick)
    requires Shaped(s) && PcShape(t) && t.pc == L(l) && LockStep(s, t, l, pick).Some?
    ensures LineLaw(s, i, t, LockStep(s, t, l, pick).value)
  {
  }

  lemma OpenerLine(s: State, i: nat, t: Task, o: OPc, pick: Pick)
    requires Shaped(s) && PcShape(t) && t.pc == O(o) && OpenerStep(s, t, o, pick).Some?
    ensures LineLaw(s, i, t, OpenerStep(s, t, o, pick).value)
  {
    hide WaitingAnswer, Allocate;
  }

  lemma CloserLine(s: State, i: nat, t: Task, c: CPc)
    requires PcShape(t) && t.pc == C(c)
    ensures LineLaw(s, i, t, CloserStep(s, t, c))
  {
  }

  lemma TakerLine(s: State, i: nat, t: Task, d: DPc, pick: Pick)
    requires Shaped(s) && PcShape(t) && t.pc == D(d) && TakerStep(s, t, d, pick).Some?
    ensures LineLaw(s, i, t, TakerStep(s, t, d, pick).value)
  {
  }

  lemma StartLine(s: State, i: nat, t: Task, pick: Pick)
    requires PcShape(t) && t.pc == Rest && StartStep(s, pick).Some?
    ensures LineLaw(s, i, t, StartStep(s, pick).value)
  {
    hide Allocate;
  }

  lemma ReaderLine(s: State, i: nat, t: Task, r: RPc, pick: Pick)
    requires Shaped(s) && TableShape(s.table, s.handed)
    requires PcShape(t) && t.pc == R(r) && ReaderStep(s, t, r, pick).Some?
    ensures LineLaw(s, i, t, ReaderStep(s, t, r, pick).value)
  {
    hide StepGot, WaitingAnswer;
    if r.RGot? { GotLine(s, i, t, r.pkt); }
  }

  lemma GotLine(s: State, i: nat, t: Task, pkt: Packet)
    requires Shaped(s) && TableShape(s.table, s.handed) && PcShape(t) && t.pc == R(RGot(pkt))
    ensures LineLaw(s, i, t, StepGot(s, t, pkt))
  {
    hide Dispatch, Touched, AcceptOpenReady, ApplyReady, Credited;
    TouchedNeutral(s.table, s.handed, pkt);
    ReadyKeepsQueue(s.table, pkt);
  }

  lemma ReadyKeepsQueue(table: Table, pkt: Packet)
    ensures forall idx :: 0 <= idx < |table.slots| && table.slots[idx].Some? ==>
              var slot := table.slots[idx].value;
              && (var a := AcceptOpenReady(slot, pkt.arg0, pkt.data); a.Some? ==> a.value.queue == slot.queue)
              && (var a := ApplyReady(slot, pkt.data); a.Some? ==> a.value.queue == slot.queue)
  {
  }

  lemma StepLine(s: State, i: nat, pick: Pick)
    requires Basic(s) && i < |s.tasks| && Step(s, i, pick).Some?
    ensures LineLaw(s, i, s.tasks[i], Step(s, i, pick).value)
  {
    hide WriterStep, LockStep, OpenerStep, CloserStep, TakerStep, ReaderStep, StartStep;
    var t := s.tasks[i];
    assert TaskShape(t, |s.table.slots|, s.table.nextLocalId, s.handed);
    match t.pc {
      case Rest => StartLine(s, i, t, pick);
      case WakeRest(_) =>
      case AFree =>
      case W(w) => WriterLine(s, i, t, w, pick);
      case L(l) => LockLine(s, i, t, l, pick);
      case O(o) => OpenerLine(s, i, t, o, pick);
      case C(c) => CloserLine(s, i, t, c);
      case D(d) => TakerLine(s, i, t, d, pick);
      case R(r) => ReaderLine(s, i, t, r, pick);
    }
  }

  lemma StepKeepsLine(s: State, i: nat, pick: Pick)
    requires Basic(s) && LineInv(s) && i < |s.tasks| && Step(s, i, pick).Some?
    ensures LineInv(Next(s, i, pick))
  {
    hide Step, Lawful, LineLaw, Apply;
    StepLawful(s, i, pick);
    StepLine(s, i, pick);
    ApplyKeepsLine(s, i, Step(s, i, pick).value);
  }

  lemma EmptyQueue()
    ensures Valid(EMPTY) && Waiters(EMPTY) == []
  {
  }

  lemma SeatMeansWriter(t: Task)
    requires PcShape(t) && t.seat.Some?
    ensures t.kind.WriterCall?
  {
  }

  lemma ApplyKeepsListed(s: State, i: nat, e: Effect, j: nat)
    requires Basic(s) && LineInv(s) && i < |s.tasks| && j < |s.tasks|
    requires Lawful(s, s.tasks[i], e) && LineLaw(s, i, s.tasks[i], e)
    ensures var s1 := Apply(s, i, e); Listed(s1.tasks[j], j, s1.table, s1.lines)
  {
    hide PcShape, Serve, Leave, Enqueue, Waiters, Valid, LineAt, SlotShape, Sound, OneEach, AcceptedOpen;
    var s1 := Apply(s, i, e);
    assert TaskShape(s.tasks[j], |s.table.slots|, s.table.nextLocalId, s.handed);
    assert Listed(s.tasks[j], j, s.table, s.lines);
    if s.tasks[j].seat.Some? { SeatMeansWriter(s.tasks[j]); }
    if !e.line.SameLine? { OwnLine(s, i, e); }
  }

  lemma ApplyKeepsLine(s: State, i: nat, e: Effect)
    requires Basic(s) && LineInv(s) && i < |s.tasks|
    requires Lawful(s, s.tasks[i], e) && LineLaw(s, i, s.tasks[i], e)
    ensures LineInv(Apply(s, i, e))
  {
    hide PcShape, LineAt, Listed, Lawful, LineLaw;
    var s1 := Apply(s, i, e);
    forall idx | 0 <= idx < |s1.lines|
      ensures LineAt(s1.table.slots[idx], idx, s1.lines[idx], s1.tasks, s1.nextTicket)
    {
      ApplyKeepsLines(s, i, e, idx);
    }
    forall j | 0 <= j < |s1.tasks| ensures Listed(s1.tasks[j], j, s1.table, s1.lines) {
      ApplyKeepsListed(s, i, e, j);
    }
  }

  /** Nothing but a writer's own step touches its `CreditGuard`. */
  lemma OthersGrantNothing(s: State, i: nat, pick: Pick)
    requires Basic(s) && i < |s.tasks| && Step(s, i, pick).Some? && !s.tasks[i].pc.W?
    requires s.tasks[i].credit.None?
    ensures Step(s, i, pick).value.task.credit.None?
  {
    hide TableShape, Dispatch, SettleTake, TakeBuffered, CloseRemote, WaitingAnswer, Allocate, WriterStep, LockStep;
    var t := s.tasks[i];
    assert TaskShape(t, |s.table.slots|, s.table.nextLocalId, s.handed);
    match t.pc {
      case L(l) => hide OpenerStep, CloserStep, TakerStep, ReaderStep, StartStep; LockGrantsNothing(s, t, l, pick);
      case O(_) => hide CloserStep, TakerStep, ReaderStep, StartStep;
      case R(r) => hide OpenerStep, CloserStep, TakerStep, ReaderStep, StartStep; ReaderGrantsNothing(s, t, r, pick);
      case C(_) => hide OpenerStep, TakerStep, ReaderStep, StartStep;
      case D(_) => hide OpenerStep, CloserStep, ReaderStep, StartStep;
      case _ => hide OpenerStep, CloserStep, TakerStep, ReaderStep;
    }
  }

  lemma ReaderGrantsNothing(s: State, t: Task, r: RPc, pick: Pick)
    requires Shaped(s) && ReaderStep(s, t, r, pick).Some? && t.credit.None?
    ensures ReaderStep(s, t, r, pick).value.task.credit.None?
  {
    hide Dispatch, Touched, CloseRemote, WaitingAnswer, At;
  }

  lemma LockGrantsNothing(s: State, t: Task, l: LPc, pick: Pick)
    requires SoundTable(s.table) && t.pc == L(l) && LockStep(s, t, l, pick).Some? && t.credit.None?
    ensures LockStep(s, t, l, pick).value.task.credit.None?
  {
    hide Resume, StepHeld, StepReach, SendFails, PayStep;
    if l.Wait? || l.Unlock? { ResumeGrantsNothing(t); }
    else if l.Pay? { FailGrantsNothing(t, l.debt, pick); }
    else if l.Held? || l.Send? || l.Flush? {
      UseGrantsNothing(s, t, l.stamp);
      FailGrantsNothing(t, Debt(CloseIt(t.ids), ByCaller), pick);
    }
  }

  lemma ResumeGrantsNothing(t: Task)
    requires t.credit.None?
    ensures forall res :: Resume(t, res).task.credit.None?
  {
  }

  lemma UseGrantsNothing(s: State, t: Task, stamp: nat)
    requires SoundTable(s.table) && t.credit.None?
    ensures StepHeld(s, t, stamp).task.credit.None? && StepReach(s, t, stamp).task.credit.None?
  {
    hide SettleTake;
  }

  lemma FailGrantsNothing(t: Task, d: Debt, pick: Pick)
    requires t.credit.None?
    ensures SendFails(t, pick).Some? ==> SendFails(t, pick).value.task.credit.None?
    ensures PayStep(t, d, pick).Some? ==> PayStep(t, d, pick).value.task.credit.None?
  {
  }

  /** Only `try_reserve` grants credit, and only to the writer at the head of the queue. */
  lemma GrantServes(s: State, i: nat, pick: Pick)
    requires Basic(s) && i < |s.tasks| && Step(s, i, pick).Some?
    requires s.tasks[i].credit.None? && Step(s, i, pick).value.task.credit.Some?
    ensures s.tasks[i].pc == W(WTry) && Step(s, i, pick).value.line.ServeFirst?
  {
    hide StepGot, StepAct, StepFail, StepGuard, StepLook, StepAlloc, StepAccept, StepTake, Allocate, Serve, TableShape;
    assert TaskShape(s.tasks[i], |s.table.slots|, s.table.nextLocalId, s.handed);
    if !s.tasks[i].pc.W? { OthersGrantNothing(s, i, pick); }
  }

  /**
   First come, first served: the writer a step grants credit came before every
   other writer that waits on the same channel.
   */
  lemma CreditGoesInOrder(s: State, i: nat, pick: Pick, j: nat)
    requires Basic(s) && LineInv(s) && i < |s.tasks| && Step(s, i, pick).Some?
    requires s.tasks[i].credit.None? && Next(s, i, pick).tasks[i].credit.Some?
    requires j < |s.tasks| && s.tasks[j].seat.Some? && s.tasks[j].ch == s.tasks[i].ch
    ensures s.tasks[i].seat.Some? && s.tasks[i].seat.value.ticket <= s.tasks[j].seat.value.ticket
    ensures s.tasks[i].seat.value.ticket == s.tasks[j].seat.value.ticket ==> i == j
  {
    hide Step, Serve, Valid, Waiters;
    StepLine(s, i, pick);
    GrantServes(s, i, pick);
    var a := Position(s, i);
    var b := Position(s, j);
    var q := Get(s.table, s.tasks[i].ch).value.queue;
    TurnIsFirst(q);
    WaitersAre(q);
    assert a == 0;
    assert LineAt(s.table.slots[s.tasks[i].ch.slot], s.tasks[i].ch.slot, s.lines[s.tasks[i].ch.slot], s.tasks,
                  s.nextTicket);
  }
}
