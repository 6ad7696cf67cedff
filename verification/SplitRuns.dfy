/** What holds in every state every run of a split connection reaches. */
module SplitRuns {
  import opened Prelude
  import opened SendQueues
  import opened Slots
  import opened ChannelTables
  import opened SplitMachine
  import opened SplitInvariants
  import opened SplitBasic
  import opened SplitCredit
  import opened SplitLine
  import opened SplitWake
  import opened SplitDebt
  import opened SplitOpen
  import opened SplitSpent

  /**
   What an unsplit connection leaves in its table: channels it handed out, open or
   closed, with no writer queued on them.
   */
  ghost predicate Splittable(table: Table) {
    && TableOk(table)
    && forall idx :: 0 <= idx < |table.slots| && table.slots[idx].Some? ==>
         var slot := table.slots[idx].value;
         slot.state != Opening && slot.remote.Some? && slot.sendBudget >= 0 && slot.queue == EMPTY
  }

  /** A connection just split: its table, whether it is out of step, the largest chunk, how many calls at once. */
  datatype Setup = Setup(table: Table, desync: bool, maxChunk: nat, calls: nat)

  datatype Move = Move(task: nat, pick: Pick)

  /** The books of a channel the connection was split with. */
  function BookOf(entry: Option<Slot>): Book {
    match entry
    case None => BLANK
    case Some(slot) =>
      BLANK.(granted := if slot.policy.ack == Delayed then Max(0, slot.sendBudget) else 0,
             outstanding := if slot.wrteAcked then 0 else 1)
  }

  ghost function Locals(slots: Entries): set<nat> {
    set idx | 0 <= idx < |slots| && slots[idx].Some? :: slots[idx].value.local
  }

  ghost function Initial(c: Setup): State {
    var slots := c.table.slots;
    State(c.table, c.maxChunk, seq(|slots| + 1, _ => 0), [], None, c.desync, false, false,
          [READER] + seq(c.calls, _ => IDLE),
          Locals(slots), seq(|slots|, _ => []), seq(|slots|, idx requires 0 <= idx < |slots| => BookOf(slots[idx])),
          0, [], [], false, [], [])
  }

  ghost predicate Enabled(s: State, m: Move) {
    m.task < |s.tasks| && Shaped(s) && PcShape(s.tasks[m.task]) && Step(s, m.task, m.pick).Some?
  }

  /** The state a run ends in, if each of its moves was possible. */
  ghost function After(s: State, moves: seq<Move>): Option<State> {
    if moves == [] then Some(s)
    else
      var before := After(s, moves[..|moves| - 1]);
      var m := moves[|moves| - 1];
      if before.None? || !Enabled(before.value, m) then None
      else Some(Apply(before.value, m.task, Step(before.value, m.task, m.pick).value))
  }

  ghost predicate Inv(s: State) {
    Basic(s) && CreditInv(s) && LineInv(s) && WakeInv(s) && DebtInv(s) && OpenInv(s)
  }

  lemma InitialBasic(c: Setup)
    requires Splittable(c.table)
    ensures Basic(Initial(c))
  {
  }

  lemma InitialCredit(c: Setup)
    requires Splittable(c.table)
    ensures CreditInv(Initial(c))
  {
    var s := Initial(c);
    forall idx | 0 <= idx < |s.books| ensures CreditAt(s.table.slots[idx], idx, s.tasks, s.books[idx]) {
      if s.table.slots[idx].Some? {
        var ch := ChannelId(idx, s.table.slots[idx].value.local);
        SumZero(s.tasks, Guards(ch));
        SumZero(s.tasks, Unsent(ch));
        SumZero(s.tasks, Tokens(ch));
      }
    }
  }

  lemma InitialLine(c: Setup)
    requires Splittable(c.table)
    ensures LineInv(Initial(c))
  {
  }

  lemma InitialRest(c: Setup)
    requires Splittable(c.table)
    ensures WakeInv(Initial(c)) && DebtInv(Initial(c)) && OpenInv(Initial(c))
  {
  }

  lemma MoveKeeps(s: State, m: Move)
    requires Inv(s) && Enabled(s, m)
    ensures Inv(Next(s, m.task, m.pick))
  {
    hide Basic, CreditInv, LineInv, WakeInv, DebtInv, OpenInv, Step, Apply, Next;
    StepKeepsBasic(s, m.task, m.pick);
    StepKeepsCredit(s, m.task, m.pick);
    StepKeepsLine(s, m.task, m.pick);
    StepKeepsWake(s, m.task, m.pick);
    StepKeepsDebt(s, m.task, m.pick);
    StepKeepsOpen(s, m.task, m.pick);
  }

  lemma {:induction false} EveryRunKeeps(c: Setup, moves: seq<Move>)
    requires Splittable(c.table) && After(Initial(c), moves).Some?
    ensures Inv(After(Initial(c), moves).value)
  {
    hide Basic, CreditInv, LineInv, WakeInv, DebtInv, OpenInv, Enabled, Step, Apply, Initial, Splittable;
    if moves == [] {
      InitialBasic(c);
      InitialCredit(c);
      InitialLine(c);
      InitialRest(c);
    } else {
      var before := moves[..|moves| - 1];
      EveryRunKeeps(c, before);
      MoveKeeps(After(Initial(c), before).value, moves[|moves| - 1]);
    }
  }

  ghost predicate Reached(c: Setup, moves: seq<Move>, s: State) {
    Splittable(c.table) && After(Initial(c), moves) == Some(s)
  }

  // ---- send credit ----

  /**
   Send credit is conserved. With delayed ack what the device granted, and what
   was taken back for WRTEs it has, is in the budget, reserved, or spent on WRTEs
   it has. Without it, there is one token: free, reserved or with the device, on
   each channel that never got a second go-ahead. `SecondGoAhead` says when it gets
   one, `SentStaysPaid` when nothing is taken back.
   */
  lemma CreditConserved(c: Setup, moves: seq<Move>, s: State, idx: nat)
    requires Reached(c, moves, s) && idx < |s.table.slots| && s.table.slots[idx].Some?
    ensures idx < |s.books|
    ensures var slot := s.table.slots[idx].value;
            var ch := ChannelId(idx, slot.local);
            && (slot.policy.ack == Delayed ==>
                  && 0 <= slot.sendBudget
                  && s.books[idx].granted + s.books[idx].takenBack
                  == slot.sendBudget + Sum(s.tasks, Unsent(ch)) + s.books[idx].sent)
            && (slot.policy.ack == Classic && Tidy(s.books[idx]) ==>
                  (if slot.wrteAcked then 1 else 0) + Sum(s.tasks, Tokens(ch)) + s.books[idx].outstanding == 1)
  {
    hide Basic, LineInv, WakeInv, DebtInv, OpenInv, After, Initial;
    EveryRunKeeps(c, moves);
    assert CreditAt(s.table.slots[idx], idx, s.tasks, s.books[idx]);
  }

  /** The go-aheads of a channel without delayed ack: free, reserved and with the device. */
  ghost function GoAheads(s: State, idx: nat, slot: Slot): nat
    requires idx < |s.books|
  {
    (if slot.wrteAcked then 1 else 0) + Sum(s.tasks, Tokens(ChannelId(idx, slot.local))) + s.books[idx].outstanding
  }

  /**
   Exactly when a step breaks that: while a channel has its one token, a step gives
   it a second one if and only if it takes an OKAY for a WRTE the device has not
   got while one is reserved, or refunds one the device has while no token is free.
   */
  lemma SecondGoAhead(s: State, m: Move, s1: State, idx: nat)
    requires Inv(s) && Enabled(s, m) && s1 == Next(s, m.task, m.pick)
    requires idx < |s.table.slots| == |s1.table.slots| == |s.books| == |s1.books|
    requires s.table.slots[idx].Some? && s1.table.slots[idx].Some?
    requires var slot, after := s.table.slots[idx].value, s1.table.slots[idx].value;
             slot.policy.ack == Classic && Tidy(s.books[idx]) && after.local == slot.local
    ensures GoAheads(s, idx, s.table.slots[idx].value) == 1
    ensures GoAheads(s1, idx, s1.table.slots[idx].value) == if Tidy(s1.books[idx]) then 1 else 2
    ensures !Tidy(s1.books[idx]) <==> Untidies(s, s.tasks[m.task], idx)
  {
    hide LineInv, WakeInv, DebtInv, OpenInv, Step, PcShape, TableShape, TasksShape, Lawful, CreditLaw, Balanced,
         TableLaw, AcceptedOpen, Untidies;
    var i := m.task;
    var e := Step(s, i, m.pick).value;
    StepLawful(s, i, m.pick);
    StepCredits(s, i, m.pick);
    assert CreditAt(s.table.slots[idx], idx, s.tasks, s.books[idx]);
    SameChannelStays(s, i, e, idx);
    StaysBalanced(s, i, e, idx);
    TokensMove(s, i, e, idx);
    BookTells(s, s.tasks[i], e, idx);
    if Untidies(s, s.tasks[i], idx) { UntidiesBooks(s, i, m.pick, idx); }
  }

  lemma BookTells(s: State, t: Task, e: Effect, idx: nat)
    requires |s.books| == |s.table.slots| && idx < |s.books| && CreditLaw(s, t, e)
    ensures |ChangeBooks(s.books, e.book)| == |s.books|
    ensures Tidy(s.books[idx]) && !Tidy(ChangeBooks(s.books, e.book)[idx]) ==> Untidies(s, t, idx)
  {
    hide Balanced, Tidy;
  }

  /** A slot that still carries its id was not filled anew. */
  lemma SameChannelStays(s: State, i: nat, e: Effect, idx: nat)
    requires Basic(s) && i < |s.tasks| && idx < |s.table.slots| && s.table.slots[idx].Some? && Lawful(s, s.tasks[i], e)
    ensures !(e.table.Add? && e.table.ch.slot == idx) && TableLaw(s.table, s.handed, e.table)
  {
    hide TaskLaw, HandLaw;
  }

  lemma TokensMove(s: State, i: nat, e: Effect, idx: nat)
    requires i < |s.tasks| && idx < |s.table.slots| && idx < |s.books| && s.table.slots[idx].Some?
    requires var s1 := Apply(s, i, e); idx < |s1.table.slots| && idx < |s1.books| && s1.table.slots[idx].Some?
    requires s.table.slots[idx].value.policy.ack == Classic && Tidy(s.books[idx])
    requires Balanced(s.table.slots[idx].value, Apply(s, i, e).table.slots[idx].value, s.books[idx],
                      Apply(s, i, e).books[idx],
                      s.tasks[i], e.task, ChannelId(idx, s.table.slots[idx].value.local))
    ensures var s1 := Apply(s, i, e);
            GoAheads(s1, idx, s1.table.slots[idx].value)
            == GoAheads(s, idx, s.table.slots[idx].value) + if Tidy(s1.books[idx]) then 0 else 1
  {
    hide Sum, Weigh, ChangeTable, ChangeBooks, ChangeLines, ChangeAnswers;
    SumPut(s.tasks, i, e.task, Tokens(ChannelId(idx, s.table.slots[idx].value.local)));
  }

  /** No call was told that the device is gone. */
  ghost predicate NeverGone(moves: seq<Move>) {
    forall k :: 0 <= k < |moves| ==> moves[k].pick != Gone
  }

  lemma {:induction false} RunKeepsPaid(c: Setup, moves: seq<Move>)
    requires Splittable(c.table) && After(Initial(c), moves).Some?
    requires NeverGone(moves) && !After(Initial(c), moves).value.desync
    ensures SentIsPaid(After(Initial(c), moves).value)
  {
    if moves == [] {
    } else {
      hide CreditInv, LineInv, WakeInv, DebtInv, OpenInv, Step, Basic, Initial, Splittable, SentIsPaid, ChangeTable,
           ChangeLines, ChangeBooks, ChangeAnswers, ChangeSig;
      var before, m := moves[..|moves| - 1], moves[|moves| - 1];
      EveryRunKeeps(c, before);
      RunKeepsPaid(c, before);
      StepKeepsPaid(After(Initial(c), before).value, m.task, m.pick);
    }
  }

  /**
   While the device is there and the stream in step, nothing the device has is taken
   back. So with delayed ack the credit it granted is all in the budget, reserved or
   spent; and without it a channel has exactly one go-ahead unless the device itself
   sent an OKAY for a WRTE it had not got.
   */
  lemma SentStaysPaid(c: Setup, moves: seq<Move>, s: State, idx: nat)
    requires Reached(c, moves, s) && NeverGone(moves) && !s.desync
    requires idx < |s.table.slots| && s.table.slots[idx].Some?
    ensures idx < |s.books| && !s.books[idx].regretted && s.books[idx].takenBack == 0
    ensures var slot := s.table.slots[idx].value;
            && (slot.policy.ack == Delayed ==>
                  && 0 <= slot.sendBudget
                  && s.books[idx].granted
                     == slot.sendBudget + Sum(s.tasks, Unsent(ChannelId(idx, slot.local))) + s.books[idx].sent)
            && (slot.policy.ack == Classic && !s.books[idx].rude ==> GoAheads(s, idx, slot) == 1)
  {
    hide After, Initial, Settling;
    CreditConserved(c, moves, s, idx);
    RunKeepsPaid(c, moves);
    assert NothingBack(s.books[idx]);
  }

  // ---- writers in line ----

  ghost predicate Parked(s: State, t: Task) {
    t.pc == W(WPark) && Asleep(t, s.sig, ReceiveSignal(s))
  }

  /**
   No lost wake-up. When every writer queued on a channel sleeps and nobody is
   about to wake them, the channel is open, the connection live, and there is
   no credit for the first of them to take.
   */
  lemma NoLostWakeUp(c: Setup, moves: seq<Move>, s: State, ch: ChannelId, i: nat)
    requires Reached(c, moves, s) && i < |s.tasks| && s.tasks[i].seat.Some? && s.tasks[i].ch == ch
    requires forall j :: 0 <= j < |s.tasks| && s.tasks[j].seat.Some? && s.tasks[j].ch == ch ==> Parked(s, s.tasks[j])
    requires !Pending(s.tasks, ch.slot, ReceiveSignal(s), s.desync)
    ensures Get(s.table, ch).Some? && Get(s.table, ch).value.state == Open
    ensures SplitMachine.Live(s) && Budget(Get(s.table, ch).value).None?
  {
    hide Basic, CreditInv, LineInv, WakeInv, DebtInv, OpenInv, After, Initial;
    EveryRunKeeps(c, moves);
    SleeperFound(s, i);
    var h := FirstInLine(s, i);
    SleeperFound(s, h);
  }

  lemma SleeperFound(s: State, i: nat)
    requires Basic(s) && WakeInv(s) && i < |s.tasks| && s.tasks[i].seat.Some? && Parked(s, s.tasks[i])
    requires !Pending(s.tasks, s.tasks[i].ch.slot, ReceiveSignal(s), s.desync)
    ensures var slot := Get(s.table, s.tasks[i].ch);
            slot.Some? && slot.value.state == Open && SplitMachine.Live(s)
            && NoCredit(slot.value, s.tasks[i].seat.value.place)
  {
    hide Pending;
    var t := s.tasks[i];
    assert Restful(s, t);
    assert TaskShape(t, |s.table.slots|, s.table.nextLocalId, s.handed);
  }

  /** The writer whose turn it is. */
  lemma FirstInLine(s: State, i: nat) returns (h: nat)
    requires LineInv(s) && i < |s.tasks| && s.tasks[i].seat.Some? && Get(s.table, s.tasks[i].ch).Some?
    ensures h < |s.tasks| && s.tasks[h].seat.Some? && s.tasks[h].ch == s.tasks[i].ch
    ensures s.tasks[h].seat.value.place == Get(s.table, s.tasks[i].ch).value.queue.head
  {
    hide Waiters, Valid;
    var t := s.tasks[i];
    var k := Position(s, i);
    var line := s.lines[t.ch.slot];
    var q := Get(s.table, t.ch).value.queue;
    assert LineAt(s.table.slots[t.ch.slot], t.ch.slot, line, s.tasks, s.nextTicket);
    TurnIsFirst(q);
    h := line[0].task;
    assert Sits(s.tasks[h], t.ch, Waiters(q)[0], line[0].no);
  }

  /** Credit goes to writers in the order they came. */
  lemma ServedInOrder(c: Setup, moves: seq<Move>, s: State, m: Move, j: nat)
    requires Reached(c, moves, s) && Enabled(s, m)
    requires s.tasks[m.task].credit.None? && Step(s, m.task, m.pick).value.task.credit.Some?
    requires j < |s.tasks| && j != m.task && s.tasks[j].seat.Some? && s.tasks[j].ch == s.tasks[m.task].ch
    ensures s.tasks[m.task].seat.Some? && s.tasks[m.task].seat.value.ticket < s.tasks[j].seat.value.ticket
  {
    hide Basic, CreditInv, LineInv, WakeInv, DebtInv, OpenInv, After, Initial, Step;
    EveryRunKeeps(c, moves);
    CreditGoesInOrder(s, m.task, m.pick, j);
  }

  /**
   `waits_for_credit` answers true exactly when a writer waits for credit the channel has
   not got and none is sending.
   */
  lemma WaitsForCreditMeans(c: Setup, moves: seq<Move>, s: State, ch: ChannelId)
    requires Reached(c, moves, s) && Get(s.table, ch).Some?
    ensures WaitsForCredit(s.table, ch) <==>
              && Get(s.table, ch).value.state != Closed && Budget(Get(s.table, ch).value).None?
              && (exists i :: 0 <= i < |s.tasks| && s.tasks[i].seat.Some? && s.tasks[i].ch == ch)
              && (forall i :: 0 <= i < |s.tasks| && s.tasks[i].ch == ch ==> s.tasks[i].credit.None?)
  {
    hide Basic, CreditInv, LineInv, WakeInv, DebtInv, OpenInv, After, Initial;
    EveryRunKeeps(c, moves);
    QueueHasWriters(s, ch);
    GuardsCounted(s, ch);
  }

  lemma QueueHasWriters(s: State, ch: ChannelId)
    requires LineInv(s) && Get(s.table, ch).Some?
    ensures !IsEmpty(Get(s.table, ch).value.queue) <==>
              exists i :: 0 <= i < |s.tasks| && s.tasks[i].seat.Some? && s.tasks[i].ch == ch
  {
    hide Waiters, Valid, IsEmpty;
    var q := Get(s.table, ch).value.queue;
    var line := s.lines[ch.slot];
    assert LineAt(s.table.slots[ch.slot], ch.slot, line, s.tasks, s.nextTicket);
    TurnIsFirst(q);
    if !IsEmpty(q) {
      assert Sits(s.tasks[line[0].task], ch, Waiters(q)[0], line[0].no);
    }
    if i :| 0 <= i < |s.tasks| && s.tasks[i].seat.Some? && s.tasks[i].ch == ch {
      var k := Position(s, i);
    }
  }

  lemma GuardsCounted(s: State, ch: ChannelId)
    requires CreditInv(s) && Get(s.table, ch).Some?
    ensures Get(s.table, ch).value.queue.sending == 0 <==>
              forall i :: 0 <= i < |s.tasks| && s.tasks[i].ch == ch ==> s.tasks[i].credit.None?
  {
    assert CreditAt(s.table.slots[ch.slot], ch.slot, s.tasks, s.books[ch.slot]);
    if Get(s.table, ch).value.queue.sending == 0 {
      forall i | 0 <= i < |s.tasks| && s.tasks[i].ch == ch ensures s.tasks[i].credit.None? {
        SumAtLeast(s.tasks, i, Guards(ch));
      }
    } else if forall i :: 0 <= i < |s.tasks| && s.tasks[i].ch == ch ==> s.tasks[i].credit.None? {
      SumZero(s.tasks, Guards(ch));
      assert false;
    }
  }

  // ---- other sleepers ----

  /** An opener, a channel reader or the `Reader` that sleeps with no wake on the way has nothing to do either. */
  lemma OthersSleepWell(c: Setup, moves: seq<Move>, s: State, i: nat)
    requires Reached(c, moves, s) && i < |s.tasks| && Asleep(s.tasks[i], s.sig, ReceiveSignal(s))
    requires !Pending(s.tasks, EarOn(s.tasks[i], ReceiveSignal(s)), ReceiveSignal(s), s.desync)
    ensures s.tasks[i].pc == O(OPark) ==>
              SplitMachine.Live(s) && Get(s.table, s.tasks[i].ch).Some?
              && Get(s.table, s.tasks[i].ch).value.state == Opening
    ensures s.tasks[i].pc == D(DPark) ==>
              && SplitMachine.Live(s) && Get(s.table, s.tasks[i].ch).Some?
              && !IsClosed(Get(s.table, s.tasks[i].ch).value) && !HasData(Get(s.table, s.tasks[i].ch).value)
    ensures s.tasks[i].pc == R(RRead) ==> s.owed == [] && !s.desync
  {
    hide Basic, CreditInv, LineInv, DebtInv, OpenInv, After, Initial, Pending;
    EveryRunKeeps(c, moves);
    assert Restful(s, s.tasks[i]);
  }

  /** How many notifications a call makes before it reaches signal `idx`. */
  function Ahead(t: Task, idx: nat): int {
    if t.pc.L? && t.pc.l.Unlock? then idx - t.pc.l.next
    else if t.pc.R? && t.pc.r.RWakeAll? then idx - t.pc.r.next
    else 0
  }

  /** The step notifies the signal, or the call comes closer to it. */
  ghost predicate Nearer(t: Task, e: Effect, idx: nat, receive: nat, desync: bool) {
    || e.wake == Some(idx)
    || (Wakes(e.task, idx, receive, desync) && e.flag.SameFlags? && 0 <= Ahead(e.task, idx) < Ahead(t, idx))
  }

  lemma LockNearer(s: State, t: Task, l: LPc, idx: nat)
    requires SoundTable(s.table) && t.pc == L(l) && idx < |s.sig| && Wakes(t, idx, ReceiveSignal(s), s.desync)
    ensures LockStep(s, t, l, Run).Some?
    ensures Nearer(t, LockStep(s, t, l, Run).value, idx, ReceiveSignal(s), s.desync)
  {
    hide Resume, StepHeld, StepReach, SendFails, PayStep;
  }

  lemma ReaderNearer(s: State, t: Task, r: RPc, idx: nat)
    requires SoundTable(s.table) && |s.sig| == |s.table.slots| + 1 && t.pc == R(r) && idx < |s.sig|
    requires Wakes(t, idx, ReceiveSignal(s), s.desync)
    ensures ReaderStep(s, t, r, Run).Some? && Nearer(t, ReaderStep(s, t, r, Run).value, idx, ReceiveSignal(s), s.desync)
  {
    hide StepGot, StepFail, StepOwe, StepListen, CloseRemote;
  }

  lemma OthersNearer(s: State, i: nat, t: Task, idx: nat)
    requires PcShape(t) && idx < |s.sig| && Wakes(t, idx, ReceiveSignal(s), s.desync)
    ensures t.pc.W? ==>
              WriterStep(s, i, t, t.pc.w, Run).Some? && WriterStep(s, i, t, t.pc.w, Run).value.wake == Some(idx)
    ensures t.pc.C? ==> CloserStep(s, t, t.pc.c).wake == Some(idx)
    ensures t.pc.WakeRest? ==> t.pc.idx == idx
    ensures !t.pc.O? && !t.pc.D? && t.pc != Rest && t.pc != AFree
  {
    hide StepNext, StepTry, StepLeave, StepRefund, StepCommit, StepIds, StepListen, StepFree;
  }

  /** A wake on the way arrives: the call can always go on, and its next step notifies the signal or comes closer. */
  lemma PendingWakeComes(s: State, j: nat, idx: nat)
    requires Inv(s) && j < |s.tasks| && idx < |s.sig| && Wakes(s.tasks[j], idx, ReceiveSignal(s), s.desync)
    ensures Enabled(s, Move(j, Run))
    ensures Nearer(s.tasks[j], Step(s, j, Run).value, idx, ReceiveSignal(s), s.desync)
  {
    hide CreditInv, LineInv, DebtInv, OpenInv, WakeInv, TableShape, AcceptedOpen, OneEach, Wakes, Ahead, WriterStep,
         LockStep, OpenerStep, CloserStep, TakerStep, ReaderStep, StartStep;
    var t := s.tasks[j];
    assert TaskShape(t, |s.table.slots|, s.table.nextLocalId, s.handed);
    hide PcShape;
    if t.pc.L? { LockNearer(s, t, t.pc.l, idx); }
    else if t.pc.R? { ReaderNearer(s, t, t.pc.r, idx); }
    else { OthersNearer(s, j, t, idx); }
  }

  /** What that step does to the state. */
  lemma NearerMoves(s: State, j: nat, e: Effect, idx: nat)
    requires j < |s.tasks| && |s.sig| == |s.table.slots| + 1 && idx < |s.sig|
    requires Nearer(s.tasks[j], e, idx, ReceiveSignal(s), s.desync)
    ensures var s1 := Apply(s, j, e);
            && |s1.sig| == |s.sig| && |s1.tasks| == |s.tasks|
            && (if e.wake == Some(idx) then s1.sig[idx] == s.sig[idx] + 1
                else
                  && s1.sig[idx] == s.sig[idx] && s1.desync == s.desync && ReceiveSignal(s1) == ReceiveSignal(s)
                  && Wakes(s1.tasks[j], idx, ReceiveSignal(s), s.desync)
                  && 0 <= Ahead(s1.tasks[j], idx) < Ahead(s.tasks[j], idx))
  {
    hide ChangeLines, ChangeBooks, ChangeAnswers, Wakes, Ahead, Allocate;
  }

  ghost function Steps(j: nat, n: nat): seq<Move> { seq(n, _ => Move(j, Run)) }

  /** After `n` steps of call `j` alone signal `idx` has been notified once more. */
  ghost predicate NotifiedAfter(start: State, before: seq<Move>, s: State, j: nat, idx: nat, n: nat) {
    var end := After(start, before + Steps(j, n));
    end.Some? && idx < |s.sig| == |end.value.sig| && end.value.sig[idx] == s.sig[idx] + 1
  }

  /** And it does arrive, when that call alone goes on: finitely many of its steps notify the signal. */
  lemma WakeArrives(start: State, before: seq<Move>, s: State, j: nat, idx: nat)
    requires After(start, before) == Some(s) && Inv(s)
    requires j < |s.tasks| && idx < |s.sig| && Wakes(s.tasks[j], idx, ReceiveSignal(s), s.desync)
    ensures exists n: nat :: NotifiedAfter(start, before, s, j, idx, n)
    decreases Ahead(s.tasks[j], idx)
  {
    hide Basic, CreditInv, LineInv, WakeInv, DebtInv, OpenInv, Step, Apply, Wakes, Ahead, Nearer;
    var m := Move(j, Run);
    PendingWakeComes(s, j, idx);
    NearerMoves(s, j, Step(s, j, Run).value, idx);
    MoveKeeps(s, m);
    var s1 := Next(s, j, Run);
    assert (before + [m])[..|before|] == before;
    if Step(s, j, Run).value.wake == Some(idx) {
      assert Steps(j, 1) == [m];
      assert NotifiedAfter(start, before, s, j, idx, 1);
    } else {
      WakeArrives(start, before + [m], s1, j, idx);
      var n: nat :| NotifiedAfter(start, before + [m], s1, j, idx, n);
      assert before + Steps(j, n + 1) == before + [m] + Steps(j, n);
      assert NotifiedAfter(start, before, s, j, idx, n + 1);
    }
  }

  // ---- debts ----

  /**
   Until the device is gone, the debts sent are the oldest of those recorded,
   in order and each once, the rest is queued, and no WRTE or OPEN overtook a
   debt recorded before its sender last found the queue empty.
   */
  lemma DebtsPaidOnceInOrder(c: Setup, moves: seq<Move>, s: State)
    requires Reached(c, moves, s) && !s.cleared
    ensures DebtFrames(s.wire) <= s.recorded
    ensures BeingPopped(s.tasks, s.holder) == [] ==> DebtFrames(s.wire) + s.owed == s.recorded
    ensures forall p :: 0 <= p < |s.wire| ==>
              Stamp(s.wire[p]) <= |s.recorded| && s.recorded[..Stamp(s.wire[p])] <= DebtFrames(s.wire[..p])
  {
    hide Basic, CreditInv, LineInv, WakeInv, DebtInv, OpenInv, After, Initial, DebtFrames;
    EveryRunKeeps(c, moves);
    SentInOrder(s);
    forall p | 0 <= p < |s.wire|
      ensures Stamp(s.wire[p]) <= |s.recorded| && s.recorded[..Stamp(s.wire[p])] <= DebtFrames(s.wire[..p])
    {
      DebtsComeFirst(s, p);
    }
  }

  // ---- opens ----

  /** No call is in the middle of an open, an accept or a READY that has to be refused. */
  ghost predicate Quiescent(s: State) {
    && |s.tasks| > 0 && Charges(s.tasks[0]).None?
    && forall i :: 0 <= i < |s.tasks| ==> !s.tasks[i].armed
  }

  /**
   Every READY that answered an OPEN was handed to the caller or closed by one
   CLSE. It is both exactly when its channel had failed by the time it was handed
   over (`GivenAtLook` says that this is what `given` records), and otherwise
   exactly one of the two. A CLSE names the READY's channel by both ids, unless it
   was owed for a fault and then goes to the sender of the faulty packet. And no
   slot is left that nobody was handed.
   */
  lemma NoLeakedOpen(c: Setup, moves: seq<Move>, s: State)
    requires Reached(c, moves, s) && Quiescent(s)
    ensures forall r :: 0 <= r < |s.answers| ==>
              && Owing(s.recorded, r) == (if s.answers[r].given == Some(false) then 0 else 1)
              && (s.answers[r].given.Some? ==> s.answers[r].ids.local in s.handed)
    ensures forall k :: 0 <= k < |s.recorded| && s.recorded[k].cause.ByAnswer? ==>
              && s.recorded[k].cause.answer < |s.answers| && s.recorded[k].what.CloseIt?
              && Names(s.recorded[k].what.ids, s.recorded[k].cause.fault, s.answers[s.recorded[k].cause.answer])
    ensures forall idx :: 0 <= idx < |s.table.slots| && s.table.slots[idx].Some? ==>
              s.table.slots[idx].value.local in s.handed
  {
    hide Basic, CreditInv, LineInv, WakeInv, DebtInv, After, Initial, Charges, Owing;
    EveryRunKeeps(c, moves);
    forall idx | 0 <= idx < |s.table.slots| && s.table.slots[idx].Some?
      ensures s.table.slots[idx].value.local in s.handed
    {
      assert Owned(s.table.slots[idx], idx, s.handed, s.tasks);
    }
    forall k | 0 <= k < |s.recorded| ensures DebtNames(s.recorded[k], s.answers) { }
    forall r | 0 <= r < |s.answers|
      ensures Owing(s.recorded, r) == if s.answers[r].given == Some(false) then 0 else 1
      ensures s.answers[r].given.Some? ==> s.answers[r].ids.local in s.handed
    {
      assert AnswerAt(s.answers[r], r, s.table.slots, s.books, s.handed, s.recorded, Charges(s.tasks[0]));
      if s.answers[r].fate == Waiting {
        assert false;
      }
    }
  }

  /**
   Whenever an open is given up, its slot goes; the CLSE it owes is for the READY
   that waits there, and it owes one exactly when there is such a READY.
   */
  lemma AbandonedOpenCloses(s: State, i: nat)
    requires Inv(s) && i < |s.tasks| && s.tasks[i].pc == O(OGuard)
    ensures Enabled(s, Move(i, Run))
    ensures var e := Step(s, i, Run).value;
            var r := if Get(s.table, s.tasks[i].ch).Some? then WaitingAnswer(s, s.tasks[i].ch.slot) else None;
            && Get(ChangeTable(s.table, e.table), s.tasks[i].ch).None?
            && (e.debt.Push? <==> r.Some?)
            && (r.Some? ==> e.debt.debt == Debt(CloseIt(s.answers[r.value].ids), ByAnswer(r.value, None)))
  {
    hide CreditInv, LineInv, DebtInv, WakeInv, TableShape, AcceptedOpen, StepAlloc, StepLook, AnswerAt, Owned,
         ReaderAt, DebtNames;
    var t := s.tasks[i];
    assert TaskShape(t, |s.table.slots|, s.table.nextLocalId, s.handed);
    assert OpenerAt(t, s.table, s.books, s.answers);
    if Get(s.table, t.ch).Some? {
      assert SlotAnswer(s.table.slots[t.ch.slot], s.books[t.ch.slot], s.answers, s.handed);
    }
  }

  /** A refused open frees its slot and owes the device nothing. */
  lemma RefusedOpenOwesNothing(s: State, i: nat)
    requires Inv(s) && i < |s.tasks| && s.tasks[i].pc == O(OLook)
    requires Get(s.table, s.tasks[i].ch).Some?
    requires var slot := Get(s.table, s.tasks[i].ch).value; slot.state == Closed && slot.remote.None?
    ensures Enabled(s, Move(i, Run))
    ensures var s1 := Next(s, i, Run);
            && Enabled(s1, Move(i, Run))
            && var s2 := Apply(s1, i, Step(s1, i, Run).value);
               Get(s2.table, s.tasks[i].ch).None? && s2.recorded == s.recorded && s2.tasks[i] == IDLE
  {
    hide CreditInv, LineInv, DebtInv, OpenInv, WakeInv, StepAlloc, WaitingAnswer, TableShape;
    assert TaskShape(s.tasks[i], |s.table.slots|, s.table.nextLocalId, s.handed);
    var s1 := Next(s, i, Run);
    assert s1.tasks[i] == s.tasks[i].(pc := O(OGuard));
    assert s1.table == s.table;
  }
}
