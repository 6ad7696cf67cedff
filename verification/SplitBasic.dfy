/** Every step keeps the shape of the connection. */
module SplitBasic {
  import opened Prelude
  import opened SendQueues
  import opened Slots
  import opened ChannelTables
  import opened SplitMachine
  import opened SplitInvariants

  // ---- what a step may change ----

  /** A changed slot stays the same channel; a new one takes an empty entry and the next id. */
  ghost predicate TableLaw(table: Table, handed: set<nat>, c: TableChange) {
    match c
    case SameTable => true
    case SetAt(idx, slot) =>
      && idx < |table.slots| && table.slots[idx].Some?
      && slot.local == table.slots[idx].value.local && slot.policy == table.policy && Sound(slot)
      && SlotShape(handed, Some(slot))
      && (table.slots[idx].value.state != Opening ==> slot.state != Opening)
      && (table.slots[idx].value.remote.Some? ==> slot.remote == table.slots[idx].value.remote)
    case Add(ch, slot) =>
      && ch.slot < |table.slots| && table.slots[ch.slot].None?
      && slot.local == ch.local == table.nextLocalId < U32_MAX && slot.policy == table.policy && Sound(slot)
      && SlotShape(handed, Some(slot))
    case Drop(ch) => true
  }

  /** Only an armed call hands its channel over, and only once it has opened. */
  ghost predicate HandLaw(table: Table, t: Task, e: Effect) {
    e.hand ==>
      && t.armed && !e.task.armed && !IsUser(e.task) && e.table.SameTable?
      && (forall idx :: 0 <= idx < |table.slots| && Ours(table.slots[idx], t.ch.local) ==>
            table.slots[idx].value.state != Opening && table.slots[idx].value.remote.Some?)
  }

  ghost predicate TaskLaw(s: State, t: Task, e: Effect) {
    && PcShape(e.task)
    && (IsUser(e.task) ==> (IsUser(t) && e.task.ch == t.ch) || Usable(s, e.task.ch))
    && (e.task.armed ==> (t.armed && e.task.ch == t.ch && !e.hand && !e.table.Add?)
                         || (e.table.Add? && e.table.ch == e.task.ch && !e.hand))
    && (e.task.armed && e.task.kind.AcceptCall? ==>
          || (t.armed && t.kind.AcceptCall? && !e.table.Add?)
          || (e.table.Add? && e.table.slot.state != Opening && e.table.slot.remote.Some?))
    && (match e.half
        case SameHalf => e.task.half == t.half
        case Taken => s.holder.None? && e.task.half
        case Freed => t.half && !e.task.half)
    && e.task.kind.Receiver? == t.kind.Receiver?
    && (t.pc == R(RStop3) ==> e.flag == Stopped)
    && (e.flag.Ended? ==> e.task.pc == R(RStop3) && t.kind.Receiver?)
  }

  ghost predicate Lawful(s: State, t: Task, e: Effect) {
    TableLaw(s.table, s.handed, e.table) && HandLaw(s.table, t, e) && TaskLaw(s, t, e)
  }

  lemma ChangeKeepsTable(table: Table, handed: set<nat>, c: TableChange)
    requires TableShape(table, handed) && TableLaw(table, handed, c)
    ensures TableShape(ChangeTable(table, c), handed)
    ensures |ChangeTable(table, c).slots| == |table.slots|
    ensures ChangeTable(table, c).nextLocalId == table.nextLocalId + if c.Add? then 1 else 0
  {
  }

  lemma HandKeepsTable(table: Table, handed: set<nat>, local: nat)
    requires TableShape(table, handed) && 0 < local < table.nextLocalId
    requires forall idx :: 0 <= idx < |table.slots| && Ours(table.slots[idx], local) ==>
               table.slots[idx].value.state != Opening && table.slots[idx].value.remote.Some?
    ensures TableShape(table, handed + {local})
  {
  }

  lemma TaskKeepsShape(s: State, i: nat, e: Effect)
    requires Basic(s) && i < |s.tasks| && Lawful(s, s.tasks[i], e)
    ensures var s1 := Apply(s, i, e);
            TasksShape(s1.tasks, |s.table.slots|, s.table.nextLocalId + (if e.table.Add? then 1 else 0), s1.handed)
  {
    hide PcShape;
    var t := s.tasks[i];
    var s1 := Apply(s, i, e);
    assert TaskShape(t, |s.table.slots|, s.table.nextLocalId, s.handed);
    var nextId := s.table.nextLocalId + if e.table.Add? then 1 else 0;
    forall j | 0 <= j < |s.tasks| && j != i
      ensures TaskShape(s1.tasks[j], |s.table.slots|, nextId, s1.handed)
    {
      assert TaskShape(s.tasks[j], |s.table.slots|, s.table.nextLocalId, s.handed);
    }
    assert TaskShape(e.task, |s.table.slots|, nextId, s1.handed);
    forall a, b | 0 <= a < b < |s1.tasks| && s1.tasks[a].armed && s1.tasks[b].armed
      ensures s1.tasks[a].ch.local != s1.tasks[b].ch.local
    {
      assert TaskShape(s.tasks[a], |s.table.slots|, s.table.nextLocalId, s.handed);
      assert TaskShape(s.tasks[b], |s.table.slots|, s.table.nextLocalId, s.handed);
    }
  }

  lemma AcceptedStaysOpen(s: State, i: nat, e: Effect)
    requires Basic(s) && i < |s.tasks| && Lawful(s, s.tasks[i], e)
    ensures AcceptedOpen(Apply(s, i, e).tasks, Apply(s, i, e).table.slots)
  {
    hide PcShape;
    var s1 := Apply(s, i, e);
    forall j, idx | 0 <= j < |s1.tasks| && 0 <= idx < |s1.table.slots| && s1.tasks[j].armed
                    && s1.tasks[j].kind.AcceptCall? && Ours(s1.table.slots[idx], s1.tasks[j].ch.local)
      ensures s1.table.slots[idx].value.state != Opening && s1.table.slots[idx].value.remote.Some?
    {
      assert TaskShape(s.tasks[j], |s.table.slots|, s.table.nextLocalId, s.handed);
      if !(e.table.Add? && e.table.ch.slot == idx) {
        assert Ours(s.table.slots[idx], s1.tasks[j].ch.local);
      }
    }
  }

  lemma ApplyKeepsBasic(s: State, i: nat, e: Effect)
    requires Basic(s) && i < |s.tasks| && Lawful(s, s.tasks[i], e)
    ensures Basic(Apply(s, i, e))
  {
    hide PcShape;
    TaskKeepsShape(s, i, e);
    ChangeKeepsTable(s.table, s.handed, e.table);
    if e.hand { HandKeepsTable(s.table, s.handed, s.tasks[i].ch.local); }
    AcceptedStaysOpen(s, i, e);
  }

  // ---- every step is one such change ----

  lemma SeatLawful(s: State, i: nat, t: Task, w: WPc)
    requires Shaped(s) && TableShape(s.table, s.handed) && TaskShape(t, |s.table.slots|, s.table.nextLocalId, s.handed)
    requires t.pc == W(w) && (w.WNext? || w.WTry? || w.WLeave?) && WriterStep(s, i, t, w, Run).Some?
    ensures Lawful(s, t, WriterStep(s, i, t, w, Run).value)
  {
    hide Serve, Leave, Enqueue;
    match w {
      case WNext => hide StepTry, StepLeave;
      case WTry => hide StepNext, StepLeave;
      case _ => hide StepNext, StepTry;
    }
  }

  lemma WriterLawful(s: State, i: nat, t: Task, w: WPc, pick: Pick)
    requires Shaped(s) && TableShape(s.table, s.handed) && TaskShape(t, |s.table.slots|, s.table.nextLocalId, s.handed)
    requires t.pc == W(w) && WriterStep(s, i, t, w, pick).Some?
    ensures Lawful(s, t, WriterStep(s, i, t, w, pick).value)
  {
    hide StepNext, StepTry, StepLeave;
    if w.WNext? || w.WTry? || w.WLeave? { SeatLawful(s, i, t, w); }
  }

  lemma ResumeLawful(s: State, t: Task, res: Res, half: HalfChange)
    requires Shaped(s) && TableShape(s.table, s.handed) && TaskShape(t, |s.table.slots|, s.table.nextLocalId, s.handed)
    requires (t.pc == L(Wait) && res != Done && half == SameHalf)
          || (t.pc.L? && t.pc.l.Unlock? && t.pc.l.res == res && half == Freed)
    requires t.kind.AcceptCall? ==> AcceptedOpen([t], s.table.slots)
    ensures Lawful(s, t, if half.Freed? then Resume(t, res).(half := Freed) else Resume(t, res))
  {
    ResumeTask(s, t, res, half);
    hide TaskLaw;
    if t.kind.AcceptCall? && res == Done { assert [t][0] == t; }
  }

  lemma ResumeTask(s: State, t: Task, res: Res, half: HalfChange)
    requires TaskShape(t, |s.table.slots|, s.table.nextLocalId, s.handed)
    requires (t.pc == L(Wait) && res != Done && half == SameHalf)
          || (t.pc.L? && t.pc.l.Unlock? && t.pc.l.res == res && half == Freed)
    ensures TaskLaw(s, t, if half.Freed? then Resume(t, res).(half := Freed) else Resume(t, res))
  {
  }

  lemma PayLawful(s: State, t: Task, l: LPc, pick: Pick)
    requires Shaped(s) && TableShape(s.table, s.handed) && TaskShape(t, |s.table.slots|, s.table.nextLocalId, s.handed)
    requires t.pc == L(l) && (l.Look? || l.Pay? || l.Pop? || l.Clear?) && LockStep(s, t, l, pick).Some?
    ensures Lawful(s, t, LockStep(s, t, l, pick).value)
  {
  }

  lemma HeldLawful(s: State, t: Task, stamp: nat)
    requires Shaped(s) && TableShape(s.table, s.handed) && TaskShape(t, |s.table.slots|, s.table.nextLocalId, s.handed)
    requires t.pc == L(Held(stamp))
    ensures Lawful(s, t, StepHeld(s, t, stamp))
  {
    hide HeldRead;
    if t.kind.ReadCall? { HeldReadLawful(s, t, if s.desync then L(Unlock(Errored, 0)) else L(Send(stamp))); }
  }

  lemma HeldReadLawful(s: State, t: Task, send: Pc)
    requires Shaped(s) && TableShape(s.table, s.handed) && TaskShape(t, |s.table.slots|, s.table.nextLocalId, s.handed)
    requires t.pc.L? && t.pc.l.Held? && t.kind.ReadCall? && send.L? && (send.l.Send? || send.l.Unlock?)
             && send != L(Unlock(Done, 0))
    ensures Lawful(s, t, HeldRead(s, t, send))
  {
    hide TaskLaw;
    HeldReadTask(s, t, send);
  }

  lemma HeldReadTask(s: State, t: Task, send: Pc)
    requires TaskShape(t, |s.table.slots|, s.table.nextLocalId, s.handed) && SoundTable(s.table)
    requires t.pc.L? && t.pc.l.Held? && t.kind.ReadCall? && send.L? && (send.l.Send? || send.l.Unlock?)
    ensures TaskLaw(s, t, HeldRead(s, t, send))
  {
    hide SettleTake;
  }

  lemma UseLawful(s: State, t: Task, l: LPc, pick: Pick)
    requires Shaped(s) && TableShape(s.table, s.handed) && TaskShape(t, |s.table.slots|, s.table.nextLocalId, s.handed)
    requires t.pc == L(l) && (l.Held? || l.Send? || l.Flush?) && LockStep(s, t, l, pick).Some?
    ensures Lawful(s, t, LockStep(s, t, l, pick).value)
  {
    hide StepHeld, Resume;
    if l.Held? && pick == Run { HeldLawful(s, t, l.stamp); }
  }

  lemma LockLawful(s: State, t: Task, l: LPc, pick: Pick)
    requires Shaped(s) && TableShape(s.table, s.handed) && TaskShape(t, |s.table.slots|, s.table.nextLocalId, s.handed)
    requires t.kind.AcceptCall? ==> AcceptedOpen([t], s.table.slots)
    requires t.pc == L(l) && LockStep(s, t, l, pick).Some?
    ensures Lawful(s, t, LockStep(s, t, l, pick).value)
  {
    hide Resume, StepHeld, StepReach, SendFails, PayStep;
    if l.Look? || l.Pay? || l.Pop? || l.Clear? { PayLawful(s, t, l, pick); }
    else if l.Held? || l.Send? || l.Flush? { UseLawful(s, t, l, pick); }
    else if l.Wait? {
      if pick == Cancel { ResumeLawful(s, t, Dropped, SameHalf); }
      else if pick == FailCall { ResumeLawful(s, t, Errored, SameHalf); }
    } else if !(s.desync && l.next < |s.sig|) {
      ResumeLawful(s, t, l.res, Freed);
    }
  }

  /** Only the slot at `ch.slot` can carry the id of a channel found there. */
  lemma OnlyOne(table: Table, ch: ChannelId)
    requires TableOk(table) && Get(table, ch).Some?
    ensures forall idx :: 0 <= idx < |table.slots| && Ours(table.slots[idx], ch.local) ==> idx == ch.slot
  {
  }

  lemma OpenerLawful(s: State, t: Task, o: OPc, pick: Pick)
    requires Shaped(s) && TableShape(s.table, s.handed) && TaskShape(t, |s.table.slots|, s.table.nextLocalId, s.handed)
    requires t.pc == O(o) && OpenerStep(s, t, o, pick).Some?
    ensures Lawful(s, t, OpenerStep(s, t, o, pick).value)
  {
    hide StepAlloc, StepLook, StepGuard;
    if o.OAlloc? { AllocLawful(s, t); }
    else if o.OLook? { LookLawful(s, t); }
    else if o.OGuard? { GuardLawful(s, t); }
  }

  lemma AllocLawful(s: State, t: Task)
    requires Shaped(s) && TableShape(s.table, s.handed) && TaskShape(t, |s.table.slots|, s.table.nextLocalId, s.handed)
    requires t.pc == O(OAlloc) && s.table.nextLocalId < U32_MAX
    ensures Lawful(s, t, StepAlloc(s))
  {
  }

  lemma LookLawful(s: State, t: Task)
    requires Shaped(s) && TableShape(s.table, s.handed) && TaskShape(t, |s.table.slots|, s.table.nextLocalId, s.handed)
    requires t.pc == O(OLook)
    ensures Lawful(s, t, StepLook(s, t))
  {
    hide HandNote;
    if Get(s.table, t.ch).Some? { OnlyOne(s.table, t.ch); }
  }

  lemma GuardLawful(s: State, t: Task)
    requires Shaped(s) && TableShape(s.table, s.handed) && TaskShape(t, |s.table.slots|, s.table.nextLocalId, s.handed)
    requires t.pc == O(OGuard)
    ensures Lawful(s, t, StepGuard(s, t))
  {
    hide WaitingAnswer;
  }

  lemma CloserLawful(s: State, t: Task, c: CPc)
    requires Shaped(s) && TableShape(s.table, s.handed) && TaskShape(t, |s.table.slots|, s.table.nextLocalId, s.handed)
    requires t.pc == C(c)
    ensures Lawful(s, t, CloserStep(s, t, c))
  {
  }

  lemma TakerLawful(s: State, t: Task, d: DPc, pick: Pick)
    requires Shaped(s) && TableShape(s.table, s.handed) && TaskShape(t, |s.table.slots|, s.table.nextLocalId, s.handed)
    requires t.pc == D(d) && TakerStep(s, t, d, pick).Some?
    ensures Lawful(s, t, TakerStep(s, t, d, pick).value)
  {
  }

  lemma StartLawful(s: State, t: Task, pick: Pick)
    requires Shaped(s) && TableShape(s.table, s.handed) && TaskShape(t, |s.table.slots|, s.table.nextLocalId, s.handed)
    requires t.pc == Rest && StartStep(s, pick).Some?
    ensures Lawful(s, t, StartStep(s, pick).value)
  {
  }

  lemma SlotAt(table: Table, handed: set<nat>, idx: nat)
    requires TableShape(table, handed) && idx < |table.slots| && table.slots[idx].Some?
    ensures var slot := table.slots[idx].value;
            Sound(slot) && slot.policy == table.policy && SlotShape(handed, Some(slot)) && slot.local > 0
  {
  }

  lemma OnSlotLawful(table: Table, handed: set<nat>, idx: nat, pkt: Packet)
    requires TableShape(table, handed) && idx < |table.slots| && table.slots[idx].Some?
    requires pkt.command in {Write, Ready, Close}
    ensures var slot := table.slots[idx].value;
            var out := OnSlot(idx, slot, pkt);
            && TableLaw(table, handed, SetAt(idx, out.0))
            && (out.1.AckWrite? || out.1.CreditGranted? || out.1.SlotClosed? || out.1.DataBuffered? ==>
                  out.1.idx == idx)
            && (!(out.1.AckWrite? || out.1.CreditGranted? || out.1.SlotClosed? || out.1.DataBuffered?) ==>
                  out.0 == slot)
  {
    SlotAt(table, handed, idx);
  }

  /**
   A dispatched packet changes at most the one slot its outcome names, and
   leaves every other slot and the id counter alone.
   */
  lemma DispatchTouchesOne(table: Table, handed: set<nat>, pkt: Packet)
    requires TableShape(table, handed)
    ensures var out := Dispatch(table, pkt);
            TableLaw(table, handed, Touched(table, out)) && ChangeTable(table, Touched(table, out)) == out.0
  {
    var out := Dispatch(table, pkt);
    if pkt.command == Close && pkt.arg1 == 0 {
      var closed := CloseRemote(table, pkt.arg0);
      if closed.1.Some? { SlotAt(table, handed, closed.1.value); }
    } else if pkt.command in {Write, Ready, Close} {
      var found := FindLocal(table.slots, pkt.arg1);
      if found.Some? {
        hide OnSlot;
        OnSlotLawful(table, handed, found.value, pkt);
      }
    }
  }

  lemma GotLawful(s: State, t: Task, pkt: Packet)
    requires Shaped(s) && TableShape(s.table, s.handed) && TaskShape(t, |s.table.slots|, s.table.nextLocalId, s.handed)
    requires t.pc == R(RGot(pkt))
    ensures Lawful(s, t, StepGot(s, t, pkt))
    ensures StepGot(s, t, pkt).table == Touched(s.table, Dispatch(s.table, pkt))
  {
    hide Dispatch, Touched, TableLaw;
    DispatchTouchesOne(s.table, s.handed, pkt);
  }

  lemma ActLawful(s: State, t: Task, r: RPc, pick: Pick)
    requires Shaped(s) && TableShape(s.table, s.handed) && TaskShape(t, |s.table.slots|, s.table.nextLocalId, s.handed)
    requires t.pc == R(r) && r.RAct?
    ensures Lawful(s, t, StepAct(s, t, r.outcome, r.answer, r.from, pick))
  {
    if r.outcome.CancelPendingOpen? {
      var closed := CloseRemote(s.table, r.outcome.remote);
      if closed.1.Some? { SlotAt(s.table, s.handed, closed.1.value); }
    } else {
      hide CloseRemote;
    }
  }

  lemma FailLawful(s: State, t: Task, r: RPc)
    requires Shaped(s) && TableShape(s.table, s.handed) && TaskShape(t, |s.table.slots|, s.table.nextLocalId, s.handed)
    requires t.pc == R(r) && r.RFail?
    ensures Lawful(s, t, StepFail(s, t, r.idx, r.ids, r.fault, r.cause))
  {
    hide WaitingAnswer;
  }

  lemma ReaderLawful(s: State, t: Task, r: RPc, pick: Pick)
    requires Shaped(s) && TableShape(s.table, s.handed) && TaskShape(t, |s.table.slots|, s.table.nextLocalId, s.handed)
    requires t.pc == R(r) && ReaderStep(s, t, r, pick).Some?
    ensures Lawful(s, t, ReaderStep(s, t, r, pick).value)
  {
    hide StepGot, StepAct, StepFail, StepOwe, WaitStep;
    if r.RGot? { GotLawful(s, t, r.pkt); }
    else if r.RAct? { ActLawful(s, t, r, pick); }
    else if r.RFail? { FailLawful(s, t, r); }
    else if r.ROwe? { OweLawful(s, t, r.debt); }
    else if r.RRead? { WaitLawful(s, t, pick); }
  }

  lemma OweLawful(s: State, t: Task, d: Debt)
    requires Shaped(s) && TableShape(s.table, s.handed) && TaskShape(t, |s.table.slots|, s.table.nextLocalId, s.handed)
    requires t.pc == R(ROwe(d))
    ensures Lawful(s, t, StepOwe(t, d))
  {
  }

  lemma WaitLawful(s: State, t: Task, pick: Pick)
    requires Shaped(s) && TableShape(s.table, s.handed) && TaskShape(t, |s.table.slots|, s.table.nextLocalId, s.handed)
    requires t.pc == R(RRead) && WaitStep(s, t, pick).Some?
    ensures Lawful(s, t, WaitStep(s, t, pick).value)
  {
  }

  lemma StepLawful(s: State, i: nat, pick: Pick)
    requires Basic(s) && i < |s.tasks| && Step(s, i, pick).Some?
    ensures Lawful(s, s.tasks[i], Step(s, i, pick).value)
  {
    hide WriterStep, LockStep, OpenerStep, CloserStep, TakerStep, ReaderStep, StartStep;
    var t := s.tasks[i];
    assert TaskShape(t, |s.table.slots|, s.table.nextLocalId, s.handed);
    match t.pc {
      case Rest => StartLawful(s, t, pick);
      case WakeRest(_) =>
      case AFree =>
      case W(w) => WriterLawful(s, i, t, w, pick);
      case L(l) => LockLawful(s, t, l, pick);
      case O(o) => OpenerLawful(s, t, o, pick);
      case C(c) => CloserLawful(s, t, c);
      case D(d) => TakerLawful(s, t, d, pick);
      case R(r) => ReaderLawful(s, t, r, pick);
    }
  }

  /** The state after task `i` takes the step it picked. */
  ghost function Next(s: State, i: nat, pick: Pick): State
    requires Basic(s) && i < |s.tasks| && Step(s, i, pick).Some?
  {
    Apply(s, i, Step(s, i, pick).value)
  }

  lemma StepKeepsBasic(s: State, i: nat, pick: Pick)
    requires Basic(s) && i < |s.tasks| && Step(s, i, pick).Some?
    ensures Basic(Next(s, i, pick))
  {
    hide Step;
    StepLawful(s, i, pick);
    ApplyKeepsBasic(s, i, Step(s, i, pick).value);
  }
}
