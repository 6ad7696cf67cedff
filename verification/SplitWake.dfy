/** No wake-up is lost: a call sleeps only while there is nothing for it to do. */
module SplitWake {
  import opened Prelude
  import opened SendQueues
  import opened Slots
  import opened ChannelTables
  import opened SplitMachine
  import opened SplitInvariants
  import opened SplitBasic
  import opened SplitCredit

  // ---- wakes under way, and what sleepers have seen ----

  /** Call `t` is about to notify signal `idx`, and nothing can stop it any more. */
  predicate Wakes(t: Task, idx: nat, receive: nat, desync: bool) {
    match t.pc
    case WakeRest(x) => x == idx
    case W(w) => w.WMore? && t.ch.slot == idx
    case L(l) => l.Unlock? && desync && l.next <= idx
    case C(c) => (c.CWake? && t.ch.slot == idx) || (c.CNotify? && idx == receive)
    case R(r) =>
      (match r
       case RAct(outcome, _, _) =>
         (outcome.AckWrite? || outcome.CreditGranted? || outcome.SlotClosed? || outcome.DataBuffered?)
         && outcome.idx == idx
       case RWakeBack(x) => x == idx
       case RFailWake(x, _, _) => x == idx
       case RNotify => idx == receive
       case RWakeAll(next) => next <= idx
       case _ => false)
    case _ => false
  }

  ghost predicate Pending(tasks: seq<Task>, idx: nat, receive: nat, desync: bool) {
    exists j :: 0 <= j < |tasks| && Wakes(tasks[j], idx, receive, desync)
  }

  /** The signal a call listens on. */
  function EarOn(t: Task, receive: nat): nat { if t.kind.Receiver? then receive else t.ch.slot }

  /** The writer at `place` has no credit to take. */
  predicate NoCredit(slot: Slot, place: nat) { slot.queue.head != place || Budget(slot).None? }

  /** What a call that is about to sleep, or sleeps, has made sure of. */
  predicate Settled(t: Task, entry: Option<Slot>, owes: bool, live: bool, desync: bool) {
    match t.pc
    case W(w) =>
      w.WLive? || w.WPark? ==>
        && entry.Some? && !IsClosed(entry.value) && (t.seat.Some? ==> NoCredit(entry.value, t.seat.value.place))
        && (w.WPark? ==> live)
    case O(o) => o.OLive? || o.OPark? ==> entry.Some? && entry.value.state == Opening && (o.OPark? ==> live)
    case D(d) =>
      d.DLive? || d.DPark? ==> entry.Some? && !IsClosed(entry.value) && !HasData(entry.value) && (d.DPark? ==> live)
    case R(r) => r.RRead? ==> !owes && !desync
    case _ => true
  }

  /** The points at which a call sleeps, or goes to sleep. */
  predicate Parking(t: Task) {
    match t.pc
    case W(w) => w.WLive? || w.WPark?
    case O(o) => o.OLive? || o.OPark?
    case D(d) => d.DLive? || d.DPark?
    case R(r) => r.RRead?
    case _ => false
  }

  /** A registered listener nobody has notified yet. */
  predicate Asleep(t: Task, sig: seq<nat>, receive: nat) {
    t.ear.Some? && EarOn(t, receive) < |sig| && t.ear.value == sig[EarOn(t, receive)]
  }

  ghost predicate Restful(s: State, t: Task) {
    Asleep(t, s.sig, ReceiveSignal(s)) ==>
      || Settled(t, Get(s.table, t.ch), s.owed != [], Live(s), s.desync)
      || Pending(s.tasks, EarOn(t, ReceiveSignal(s)), ReceiveSignal(s), s.desync)
  }

  predicate EarBehind(t: Task, sig: seq<nat>, receive: nat) {
    t.ear.Some? && EarOn(t, receive) < |sig| ==> t.ear.value <= sig[EarOn(t, receive)]
  }

  ghost predicate WakeInv(s: State) {
    && (forall i :: 0 <= i < |s.tasks| ==> EarBehind(s.tasks[i], s.sig, ReceiveSignal(s)))
    && (forall i :: 0 <= i < |s.tasks| ==> Restful(s, s.tasks[i]))
    && (|s.tasks| > 0 && s.tasks[0].pc.R? && s.tasks[0].pc.r.RStop2? ==> !s.stopped)
  }

  // ---- what a step owes to sleepers ----

  /** A slot change no sleeper on the channel needs to hear of. */
  predicate Quiet(before: Slot, after: Slot) {
    && after.state == before.state && (HasData(after) ==> HasData(before))
    && (Budget(after).Some? ==> Budget(before).Some? && after.queue.head == before.queue.head)
  }

  /** Every change to a channel is quiet, or a wake of its signal is on the way. */
  ghost predicate TableHeard(s: State, t: Task, e: Effect, desync: bool) {
    match e.table
    case SetAt(idx, slot) =>
      || Wakes(e.task, idx, ReceiveSignal(s), desync)
      || (idx < |s.table.slots| && s.table.slots[idx].Some? && Quiet(s.table.slots[idx].value, slot))
    case Drop(ch) => (t.armed && t.ch == ch && !e.task.armed) || Wakes(e.task, ch.slot, ReceiveSignal(s), desync)
    case _ => true
  }

  /** So are the end of the connection and a new debt. */
  ghost predicate FlagsHeard(s: State, t: Task, e: Effect, desync: bool) {
    && (e.flag.OutOfStep? || e.flag.Stopped? ==>
          forall idx :: 0 <= idx < |s.sig| ==> Wakes(e.task, idx, ReceiveSignal(s), desync))
    && (e.flag.Stopped? ==> t.pc == R(RStop3))
    && (e.flag.Ended? ==> t.pc.R? && t.pc.r.RStop2?)
    && (e.task.pc.R? && e.task.pc.r.RStop2? ==> !s.stopped && e.flag.SameFlags?)
    && (e.debt.Push? ==> t.kind.Receiver? || Wakes(e.task, ReceiveSignal(s), ReceiveSignal(s), desync))
  }

  /** The call wakes whom it was about to wake, now or later. */
  ghost predicate KeepsWord(s: State, t: Task, e: Effect, desync: bool) {
    forall idx :: 0 <= idx < |s.sig| && Wakes(t, idx, ReceiveSignal(s), s.desync) ==>
      e.wake == Some(idx) || Wakes(e.task, idx, ReceiveSignal(s), desync)
  }

  /** Its listener is the one it had, or a new one. */
  ghost predicate OwnEar(s: State, t: Task, e: Effect, desync: bool) {
    && KeepsWord(s, t, e, desync)
    && (e.task.ear.Some? ==>
          || (t.ear == e.task.ear && EarOn(t, ReceiveSignal(s)) == EarOn(e.task, ReceiveSignal(s)))
          || (EarOn(e.task, ReceiveSignal(s)) < |s.sig| && e.task.ear == Some(s.sig[EarOn(e.task, ReceiveSignal(s))])))
  }

  /** A call goes to sleep only after it looked, with its listener already registered. */
  ghost predicate OwnSleep(s: State, t: Task, e: Effect, desync: bool) {
    && (e.task.pc.R? && e.task.pc.r.RRead? ==> e.debt.SameDebts?)
    && (Parking(e.task) ==> e.flag.SameFlags?)
    && (e.task.ear.Some? ==>
      || Settled(e.task, Get(ChangeTable(s.table, e.table), e.task.ch), s.owed != [], Live(s), desync)
      || (t.ear == e.task.ear && EarOn(t, ReceiveSignal(s)) == EarOn(e.task, ReceiveSignal(s))
          && !Settled(t, Get(s.table, t.ch), s.owed != [], Live(s), s.desync)))
  }

  ghost predicate WakeLaw(s: State, t: Task, e: Effect) {
    var desync := s.desync || e.flag.OutOfStep?;
    TableHeard(s, t, e, desync) && FlagsHeard(s, t, e, desync) && OwnEar(s, t, e, desync) && OwnSleep(s, t, e, desync)
  }

  lemma StillPending(s: State, i: nat, e: Effect, idx: nat)
    requires i < |s.tasks| && idx < |s.sig| && OwnEar(s, s.tasks[i], e, s.desync || e.flag.OutOfStep?)
    requires Pending(s.tasks, idx, ReceiveSignal(s), s.desync) && e.wake != Some(idx)
    ensures Pending(s.tasks[i := e.task], idx, ReceiveSignal(s), s.desync || e.flag.OutOfStep?)
  {
    var desync := s.desync || e.flag.OutOfStep?;
    var j :| 0 <= j < |s.tasks| && Wakes(s.tasks[j], idx, ReceiveSignal(s), s.desync);
    assert Wakes(s.tasks[i := e.task][j], idx, ReceiveSignal(s), desync);
  }

  lemma NowPending(s: State, i: nat, e: Effect, idx: nat, desync: bool)
    requires i < |s.tasks| && Wakes(e.task, idx, ReceiveSignal(s), desync)
    ensures Pending(s.tasks[i := e.task], idx, ReceiveSignal(s), desync)
  {
    assert s.tasks[i := e.task][i] == e.task;
  }

  /** The step frees no channel another call waits on without waking it. */
  lemma FreedByOwner(s: State, i: nat, e: Effect, j: nat)
    requires Basic(s) && i < |s.tasks| && j < |s.tasks| && j != i && Parking(s.tasks[j])
    requires e.table.Drop? && s.tasks[i].armed && s.tasks[i].ch == e.table.ch
    ensures !s.tasks[j].pc.R? ==> Get(ChangeTable(s.table, e.table), s.tasks[j].ch) == Get(s.table, s.tasks[j].ch)
  {
    assert TaskShape(s.tasks[i], |s.table.slots|, s.table.nextLocalId, s.handed);
    assert TaskShape(s.tasks[j], |s.table.slots|, s.table.nextLocalId, s.handed);
  }

  lemma ParkedKind(t: Task)
    requires PcShape(t)
    ensures Parking(t) ==> (t.pc.R? <==> t.kind.Receiver?)
  {
  }

  /** What the step does to a channel another call waits on is no news for that call, or it is told. */
  lemma EntryStaysSettled(s: State, i: nat, e: Effect, j: nat)
    requires Basic(s) && i < |s.tasks| && j < |s.tasks| && j != i && Parking(s.tasks[j]) && !s.tasks[j].pc.R?
    requires Lawful(s, s.tasks[i], e) && TableHeard(s, s.tasks[i], e, s.desync || e.flag.OutOfStep?)
    requires Settled(s.tasks[j], Get(s.table, s.tasks[j].ch), s.owed != [], Live(s), s.desync)
    ensures var t := s.tasks[j];
            || Settled(t, Get(ChangeTable(s.table, e.table), t.ch), s.owed != [], Live(s), s.desync)
            || Wakes(e.task, t.ch.slot, ReceiveSignal(s), s.desync || e.flag.OutOfStep?)
  {
    hide PcShape, Wakes, TaskLaw, HandLaw, TasksShape, SlotShape, AcceptedOpen, OneEach, Sound;
    if e.table.Drop? && s.tasks[i].armed && s.tasks[i].ch == e.table.ch { FreedByOwner(s, i, e, j); }
  }

  /** The connection ends with every signal about to be notified. */
  lemma LiveEndsLoudly(s: State, i: nat, e: Effect, idx: nat)
    requires Basic(s) && WakeInv(s) && i < |s.tasks| && idx < |s.sig| && Live(s)
    requires Lawful(s, s.tasks[i], e) && FlagsHeard(s, s.tasks[i], e, s.desync || e.flag.OutOfStep?)
    ensures Live(Apply(s, i, e)) || Wakes(e.task, idx, ReceiveSignal(s), s.desync || e.flag.OutOfStep?)
  {
    hide PcShape, Wakes, TableLaw, HandLaw, TasksShape, TableShape, AcceptedOpen, Restful, EarBehind;
  }

  /** So is the receive signal while a debt is recorded. */
  lemma DebtsAreLoud(s: State, i: nat, e: Effect)
    requires Basic(s) && 0 < i < |s.tasks| && s.owed == [] && !s.desync
    requires FlagsHeard(s, s.tasks[i], e, s.desync || e.flag.OutOfStep?)
    ensures || (Apply(s, i, e).owed == [] && !Apply(s, i, e).desync)
            || Wakes(e.task, ReceiveSignal(s), ReceiveSignal(s), s.desync || e.flag.OutOfStep?)
  {
    hide PcShape, Wakes, TasksShape, TableShape, AcceptedOpen;
  }

  lemma OtherStaysSettled(s: State, i: nat, e: Effect, j: nat)
    requires Basic(s) && WakeInv(s) && i < |s.tasks| && j < |s.tasks| && j != i
    requires Lawful(s, s.tasks[i], e) && WakeLaw(s, s.tasks[i], e)
    requires Settled(s.tasks[j], Get(s.table, s.tasks[j].ch), s.owed != [], Live(s), s.desync)
    requires EarOn(s.tasks[j], ReceiveSignal(s)) < |s.sig|
    ensures var s1 := Apply(s, i, e); var t := s.tasks[j];
            || Settled(t, Get(s1.table, t.ch), s1.owed != [], Live(s1), s1.desync)
            || Wakes(e.task, EarOn(t, ReceiveSignal(s)), ReceiveSignal(s), s1.desync)
  {
    hide PcShape, Lawful, TableHeard, FlagsHeard, OwnEar, OwnSleep, Wakes, TableShape, Get, ChangeTable, AcceptedOpen;
    var t := s.tasks[j];
    if Parking(t) {
      assert TaskShape(t, |s.table.slots|, s.table.nextLocalId, s.handed);
      ParkedKind(t);
      if t.pc.R? {
        DebtsAreLoud(s, i, e);
      } else {
        EntryStaysSettled(s, i, e, j);
        if Live(s) { LiveEndsLoudly(s, i, e, EarOn(t, ReceiveSignal(s))); }
      }
    }
  }

  /** A listener stays behind its signal, and a sleeper keeps its reason to sleep or is about to be woken. */
  lemma OtherStaysRestful(s: State, i: nat, e: Effect, j: nat)
    requires Basic(s) && WakeInv(s) && i < |s.tasks| && j < |s.tasks| && j != i
    requires Lawful(s, s.tasks[i], e) && WakeLaw(s, s.tasks[i], e)
    ensures var s1 := Apply(s, i, e);
            EarBehind(s1.tasks[j], s1.sig, ReceiveSignal(s1)) && Restful(s1, s1.tasks[j])
  {
    hide Lawful, TableHeard, FlagsHeard, OwnSleep, OwnEar, Wakes, Settled, Pending, Basic, Get, InStep;
    var s1 := Apply(s, i, e);
    var t := s.tasks[j];
    var receive := ReceiveSignal(s);
    assert ReceiveSignal(s1) == receive by { hide *; SameCount(s, i, e); }
    assert EarBehind(t, s.sig, receive) && Restful(s, t);
    if Asleep(t, s1.sig, receive) {
      var idx := EarOn(t, receive);
      if Settled(t, Get(s.table, t.ch), s.owed != [], SplitMachine.Live(s), s.desync) {
        OtherStaysSettled(s, i, e, j);
        if Wakes(e.task, idx, receive, s1.desync) { NowPending(s, i, e, idx, s1.desync); }
      } else {
        StillPending(s, i, e, idx);
      }
    }
  }

  lemma SameCount(s: State, i: nat, e: Effect)
    requires Basic(s) && i < |s.tasks| && Lawful(s, s.tasks[i], e)
    ensures ReceiveSignal(Apply(s, i, e)) == ReceiveSignal(s)
  {
    hide TaskLaw, HandLaw, TasksShape;
    ChangeKeepsTable(s.table, s.handed, e.table);
  }

  lemma OwnRestful(s: State, i: nat, e: Effect)
    requires Basic(s) && WakeInv(s) && i < |s.tasks|
    requires Lawful(s, s.tasks[i], e) && WakeLaw(s, s.tasks[i], e)
    ensures var s1 := Apply(s, i, e);
            EarBehind(e.task, s1.sig, ReceiveSignal(s1)) && Restful(s1, e.task)
  {
    hide Lawful, TableHeard, FlagsHeard, Wakes, Settled, Pending, Basic, Get, ChangeTable;
    var s1 := Apply(s, i, e);
    var t := s.tasks[i];
    var receive := ReceiveSignal(s);
    assert ReceiveSignal(s1) == receive by { hide *; SameCount(s, i, e); }
    assert EarBehind(t, s.sig, receive) && Restful(s, t);
    if Asleep(e.task, s1.sig, receive) {
      var idx := EarOn(e.task, receive);
      if !Settled(e.task, Get(s1.table, e.task.ch), s.owed != [], SplitMachine.Live(s), s1.desync) {
        StillPending(s, i, e, idx);
      } else {
        SettledIgnores(e.task, Get(s1.table, e.task.ch), s.owed != [], SplitMachine.Live(s), s1.owed != [],
                       SplitMachine.Live(s1), s1.desync);
      }
    }
  }

  lemma SettledIgnores(t: Task, entry: Option<Slot>, owes: bool, live: bool, owes': bool, live': bool, desync: bool)
    requires Settled(t, entry, owes, live, desync)
    requires Parking(t) ==> live == live'
    requires t.pc.R? && t.pc.r.RRead? ==> owes == owes'
    ensures Settled(t, entry, owes', live', desync)
  {
  }

  lemma ReaderIsFirst(s: State, i: nat)
    requires Basic(s) && i < |s.tasks| && s.tasks[i].pc.R?
    ensures i == 0
  {
    assert TaskShape(s.tasks[i], |s.table.slots|, s.table.nextLocalId, s.handed);
  }

  lemma ApplyKeepsWake(s: State, i: nat, e: Effect)
    requires Basic(s) && WakeInv(s) && i < |s.tasks|
    requires Lawful(s, s.tasks[i], e) && WakeLaw(s, s.tasks[i], e)
    ensures WakeInv(Apply(s, i, e))
  {
    hide Restful, EarBehind, TableHeard, OwnEar, OwnSleep, TableLaw, HandLaw, TableShape, TasksShape, PcShape, Wakes;
    var s1 := Apply(s, i, e);
    forall j | 0 <= j < |s1.tasks|
      ensures EarBehind(s1.tasks[j], s1.sig, ReceiveSignal(s1)) && Restful(s1, s1.tasks[j])
    {
      if j == i { OwnRestful(s, i, e); } else { OtherStaysRestful(s, i, e, j); }
    }
    if s.tasks[i].pc.R? { ReaderIsFirst(s, i); }
  }

  // ---- every step obeys the law ----

  /** The call keeps the listener it had, or has none. */
  predicate SameEar(s: State, t: Task, u: Task) {
    u.ear.None? || (u.ear == t.ear && EarOn(t, ReceiveSignal(s)) == EarOn(u, ReceiveSignal(s)))
  }

  /** The call wakes at most the signal the step notifies. */
  predicate WakesAtMost(t: Task, wake: Option<nat>, receive: nat, desync: bool) {
    match t.pc
    case WakeRest(x) => wake == Some(x)
    case W(w) => w.WMore? ==> wake == Some(t.ch.slot)
    case L(l) => l.Unlock? ==> !desync || receive < l.next
    case C(c) => (c.CWake? ==> wake == Some(t.ch.slot)) && (c.CNotify? ==> wake == Some(receive))
    case R(r) =>
      (match r
       case RAct(outcome, _, _) =>
         outcome.AckWrite? || outcome.CreditGranted? || outcome.SlotClosed? || outcome.DataBuffered? ==>
           wake == Some(outcome.idx)
       case RWakeBack(x) => wake == Some(x)
       case RFailWake(x, _, _) => wake == Some(x)
       case RNotify => wake == Some(receive)
       case RWakeAll(next) => false
       case _ => true)
    case _ => true
  }

  /** A step after which the call does not sleep. */
  lemma PlainWake(s: State, t: Task, e: Effect)
    requires e.flag.SameFlags? && (e.debt.Push? ==> t.kind.Receiver? || e.task.pc == C(CNotify))
    requires |s.sig| == |s.table.slots| + 1 && TableHeard(s, t, e, s.desync)
    requires WakesAtMost(t, e.wake, ReceiveSignal(s), s.desync) && SameEar(s, t, e.task)
    requires !Parking(e.task) && !(e.task.pc.R? && e.task.pc.r.RStop2?)
    ensures WakeLaw(s, t, e)
  {
  }

  lemma LeaveWake(s: State, i: nat, t: Task)
    requires Shaped(s) && PcShape(t) && t.pc == W(WLeave)
    ensures WakeLaw(s, t, StepLeave(s, i, t))
  {
    hide Leave, WakeLaw;
    if Get(s.table, t.ch).Some? && t.seat.value.place != Get(s.table, t.ch).value.queue.head {
      LeaveKeepsHead(Get(s.table, t.ch).value.queue, t.seat.value.place);
    }
    PlainWake(s, t, StepLeave(s, i, t));
  }

  lemma TryWake(s: State, t: Task)
    requires Shaped(s) && PcShape(t) && t.pc == W(WTry)
    ensures WakeLaw(s, t, StepTry(s, t))
  {
    hide Serve;
    var e := StepTry(s, t);
    if !Parking(e.task) { hide WakeLaw; PlainWake(s, t, e); }
  }

  lemma WriterWake(s: State, i: nat, t: Task, w: WPc, pick: Pick)
    requires Shaped(s) && PcShape(t) && t.pc == W(w) && WriterStep(s, i, t, w, pick).Some?
    ensures WakeLaw(s, t, WriterStep(s, i, t, w, pick).value)
  {
    hide StepTry, StepLeave;
    var e := WriterStep(s, i, t, w, pick).value;
    if w.WLive? || w.WListen? { hide StepNext, StepIds, StepRefund, StepCommit; }
    else {
      hide WakeLaw;
      if w.WLeave? { LeaveWake(s, i, t); }
      else if w.WTry? { TryWake(s, t); }
      else { PlainWake(s, t, e); }
    }
  }

  lemma SpoilWake(s: State, t: Task, res: Res)
    requires Shaped(s) && t.pc.L? && !t.pc.l.Unlock?
    ensures WakeLaw(s, t, Spoil(t, res))
  {
  }

  lemma UnlockWake(s: State, t: Task, res: Res, next: nat)
    requires Shaped(s) && PcShape(t) && t.pc == L(Unlock(res, next))
    ensures WakeLaw(s, t, LockStep(s, t, t.pc.l, Run).value)
  {
    hide StepHeld, StepReach, SendFails, PayStep, Resume;
    if !(s.desync && next < |s.sig|) { ResumeWake(s, t, res); }
  }

  lemma ResumeWake(s: State, t: Task, res: Res)
    requires Shaped(s) && PcShape(t) && t.pc.L? && (t.pc.l.Unlock? ==> s.desync ==> |s.sig| <= t.pc.l.next)
    ensures WakeLaw(s, t, Resume(t, res).(half := Freed)) && WakeLaw(s, t, Resume(t, res))
  {
    hide WakeLaw;
    PlainWake(s, t, Resume(t, res));
    PlainWake(s, t, Resume(t, res).(half := Freed));
  }

  lemma LockWake(s: State, t: Task, l: LPc, pick: Pick)
    requires Shaped(s) && PcShape(t) && t.pc == L(l) && LockStep(s, t, l, pick).Some?
    ensures WakeLaw(s, t, LockStep(s, t, l, pick).value)
  {
    hide WakeLaw, Resume, StepHeld, StepReach, SendFails, PayStep;
    var e := LockStep(s, t, l, pick).value;
    if l.Unlock? { UnlockWake(s, t, l.res, l.next); }
    else if l.Wait? && pick != Run { ResumeWake(s, t, if pick == Cancel then Dropped else Errored); }
    else if l.Pay? { PayWake(s, t, l.debt, pick); }
    else if (l.Send? || l.Flush?) && pick != Run { SendWake(s, t, pick); }
    else if l.Send? { ReachWake(s, t, l.stamp); }
    else if l.Held? && pick == Run { HeldWake(s, t, l.stamp); }
    else { PlainWake(s, t, e); }
  }

  lemma PayWake(s: State, t: Task, d: Debt, pick: Pick)
    requires Shaped(s) && t.pc == L(Pay(d)) && PayStep(t, d, pick).Some?
    ensures WakeLaw(s, t, PayStep(t, d, pick).value)
  {
    hide WakeLaw, Spoil;
    if pick == Broken || pick == Cancel { SpoilWake(s, t, if pick == Cancel then Dropped else Errored); }
    else { PlainWake(s, t, PayStep(t, d, pick).value); }
  }

  lemma SendWake(s: State, t: Task, pick: Pick)
    requires Shaped(s) && t.pc.L? && (t.pc.l.Send? || t.pc.l.Flush?) && SendFails(t, pick).Some?
    ensures WakeLaw(s, t, SendFails(t, pick).value)
  {
    hide WakeLaw, Spoil;
    if pick == Broken || pick == Cancel { SpoilWake(s, t, if pick == Cancel then Dropped else Errored); }
    else { PlainWake(s, t, SendFails(t, pick).value); }
  }

  lemma ReachWake(s: State, t: Task, stamp: nat)
    requires Shaped(s) && t.pc == L(Send(stamp))
    ensures WakeLaw(s, t, StepReach(s, t, stamp))
  {
    hide WakeLaw, Charged;
    PlainWake(s, t, StepReach(s, t, stamp));
  }

  lemma HeldWake(s: State, t: Task, stamp: nat)
    requires Shaped(s) && t.pc == L(Held(stamp))
    ensures WakeLaw(s, t, StepHeld(s, t, stamp))
  {
    hide WakeLaw, HeldRead;
    if t.kind.ReadCall? {
      HeldReadWake(s, t, stamp, if s.desync then L(Unlock(Errored, 0)) else L(Send(stamp)));
    } else {
      PlainWake(s, t, StepHeld(s, t, stamp));
    }
  }

  lemma HeldReadWake(s: State, t: Task, stamp: nat, send: Pc)
    requires Shaped(s) && t.pc == L(Held(stamp)) && send.L?
    ensures WakeLaw(s, t, HeldRead(s, t, send))
  {
    hide WakeLaw, SettleTake, Quiet;
    var slot := Get(s.table, t.ch);
    if slot.Some? { SettleIsQuiet(slot.value, t.want); }
    PlainWake(s, t, HeldRead(s, t, send));
  }

  lemma SettleIsQuiet(slot: Slot, want: nat)
    requires Sound(slot)
    ensures Quiet(slot, SettleTake(slot, want).0)
  {
  }

  lemma LookWake(s: State, t: Task)
    requires Shaped(s) && PcShape(t) && t.pc == O(OLook)
    ensures WakeLaw(s, t, StepLook(s, t))
  {
    hide WaitingAnswer;
    if !Parking(StepLook(s, t).task) { hide WakeLaw; PlainWake(s, t, StepLook(s, t)); }
  }

  lemma GuardWake(s: State, t: Task)
    requires Shaped(s) && PcShape(t) && t.pc == O(OGuard)
    ensures WakeLaw(s, t, StepGuard(s, t))
  {
    hide WaitingAnswer;
    if !StepGuard(s, t).debt.Push? { hide WakeLaw; PlainWake(s, t, StepGuard(s, t)); }
  }

  lemma OpenerWake(s: State, t: Task, o: OPc, pick: Pick)
    requires Shaped(s) && PcShape(t) && t.pc == O(o) && OpenerStep(s, t, o, pick).Some?
    ensures WakeLaw(s, t, OpenerStep(s, t, o, pick).value)
  {
    hide StepLook, StepGuard, Allocate;
    var e := OpenerStep(s, t, o, pick).value;
    if o.OLook? { LookWake(s, t); }
    else if o.OGuard? { GuardWake(s, t); }
    else if o.OLive? || o.OListen? { hide StepAlloc; }
    else { hide WakeLaw; PlainWake(s, t, e); }
  }

  lemma CloserWake(s: State, t: Task, c: CPc)
    requires Shaped(s) && PcShape(t) && t.pc == C(c)
    ensures WakeLaw(s, t, CloserStep(s, t, c))
  {
  }

  lemma TakeWake(s: State, t: Task)
    requires Shaped(s) && PcShape(t) && t.pc == D(DTake)
    ensures WakeLaw(s, t, StepTake(s, t))
  {
    var e := StepTake(s, t);
    if !Parking(e.task) { hide WakeLaw; PlainWake(s, t, e); }
  }

  lemma TakerWake(s: State, t: Task, d: DPc, pick: Pick)
    requires Shaped(s) && PcShape(t) && t.pc == D(d) && TakerStep(s, t, d, pick).Some?
    ensures WakeLaw(s, t, TakerStep(s, t, d, pick).value)
  {
    hide StepTake;
    if d.DTake? { TakeWake(s, t); }
  }

  lemma StartWake(s: State, t: Task, pick: Pick)
    requires Shaped(s) && PcShape(t) && t.pc == Rest && StartStep(s, pick).Some?
    ensures WakeLaw(s, t, StartStep(s, pick).value)
  {
    hide Allocate;
  }

  lemma GotWake(s: State, t: Task, pkt: Packet)
    requires Shaped(s) && PcShape(t) && t.pc == R(RGot(pkt))
    ensures WakeLaw(s, t, StepGot(s, t, pkt))
  {
    hide Dispatch, WakeLaw, Credited;
    PlainWake(s, t, StepGot(s, t, pkt));
  }

  lemma ActWake(s: State, t: Task, r: RPc, pick: Pick)
    requires Shaped(s) && PcShape(t) && t.pc == R(r) && r.RAct?
    ensures WakeLaw(s, t, StepAct(s, t, r.outcome, r.answer, r.from, pick))
  {
    hide CloseRemote, WakeLaw;
    PlainWake(s, t, StepAct(s, t, r.outcome, r.answer, r.from, pick));
  }

  lemma FailWake(s: State, t: Task, r: RPc)
    requires Shaped(s) && PcShape(t) && t.pc == R(r) && r.RFail?
    ensures WakeLaw(s, t, StepFail(s, t, r.idx, r.ids, r.fault, r.cause))
  {
    hide WaitingAnswer, WakeLaw;
    PlainWake(s, t, StepFail(s, t, r.idx, r.ids, r.fault, r.cause));
  }

  lemma ListenWake(s: State, t: Task, r: RPc, pick: Pick)
    requires Shaped(s) && PcShape(t) && t.pc == R(r) && ReaderStep(s, t, r, pick).Some? && (r.RIntr? || r.RIntr2?)
    ensures WakeLaw(s, t, ReaderStep(s, t, r, pick).value)
  {
    hide StepGot, StepAct, StepFail, WaitStep;
  }

  lemma StopWake(s: State, t: Task, r: RPc, pick: Pick)
    requires Shaped(s) && PcShape(t) && t.pc == R(r) && ReaderStep(s, t, r, pick).Some?
    requires r.RStop1? || r.RStop2? || r.RStop3? || r.RWakeAll?
    ensures WakeLaw(s, t, ReaderStep(s, t, r, pick).value)
  {
    hide StepGot, StepAct, StepFail, WaitStep;
  }

  lemma ReaderWake(s: State, t: Task, r: RPc, pick: Pick)
    requires Shaped(s) && PcShape(t) && t.pc == R(r) && ReaderStep(s, t, r, pick).Some?
    ensures WakeLaw(s, t, ReaderStep(s, t, r, pick).value)
  {
    hide StepGot, StepAct, StepFail, WakeLaw;
    if r.RGot? { GotWake(s, t, r.pkt); }
    else if r.RAct? { ActWake(s, t, r, pick); }
    else if r.RFail? { FailWake(s, t, r); }
    else if r.RIntr? || r.RIntr2? { ListenWake(s, t, r, pick); }
    else if r.RStop1? || r.RStop2? || r.RStop3? || r.RWakeAll? { StopWake(s, t, r, pick); }
    else { PlainWake(s, t, ReaderStep(s, t, r, pick).value); }
  }

  lemma StepKeepsWake(s: State, i: nat, pick: Pick)
    requires Basic(s) && WakeInv(s) && i < |s.tasks| && Step(s, i, pick).Some?
    ensures WakeInv(Next(s, i, pick))
  {
    hide WriterStep, LockStep, OpenerStep, CloserStep, TakerStep, ReaderStep, StartStep, Apply, Lawful, WakeLaw,
         WakeInv;
    var t := s.tasks[i];
    assert TaskShape(t, |s.table.slots|, s.table.nextLocalId, s.handed);
    StepLawful(s, i, pick);
    var e := Step(s, i, pick).value;
    match t.pc {
      case Rest => StartWake(s, t, pick);
      case WakeRest(_) => PlainWake(s, t, e);
      case AFree => PlainWake(s, t, e);
      case W(w) => WriterWake(s, i, t, w, pick);
      case L(l) => LockWake(s, t, l, pick);
      case O(o) => OpenerWake(s, t, o, pick);
      case C(c) => CloserWake(s, t, c);
      case D(d) => TakerWake(s, t, d, pick);
      case R(r) => ReaderWake(s, t, r, pick);
    }
    ApplyKeepsWake(s, i, e);
  }
}
