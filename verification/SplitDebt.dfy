/** What the device is owed is sent once, in order, and before any new packet of ours. */
module SplitDebt {
  import opened Prelude
  import opened SendQueues
  import opened Slots
  import opened ChannelTables
  import opened SplitMachine
  import opened SplitInvariants
  import opened SplitBasic

  /** The OKAYs and CLSEs on the wire that paid a debt, in order. */
  ghost function DebtFrames(wire: seq<Frame>): (debts: seq<Debt>) {
    if wire == [] then []
    else
      var last := wire[|wire| - 1];
      DebtFrames(wire[..|wire| - 1]) + if last.DebtFrame? then [last.debt] else []
  }

  lemma DebtFramesPush(wire: seq<Frame>, f: Frame)
    ensures DebtFrames(wire + [f]) == DebtFrames(wire) + if f.DebtFrame? then [f.debt] else []
  {
    assert (wire + [f])[..|wire|] == wire;
  }

  lemma {:induction false} DebtFramesPrefix(wire: seq<Frame>, p: nat)
    requires p <= |wire|
    ensures DebtFrames(wire[..p]) <= DebtFrames(wire)
  {
    if p == |wire| {
      assert wire[..p] == wire;
    } else {
      var front := wire[..|wire| - 1];
      DebtFramesPrefix(front, p);
      assert front[..p] == wire[..p];
    }
  }

  /** The debts recorded before the sender of this packet last found none left. */
  function Stamp(f: Frame): nat {
    match f
    case WriteFrame(_, _, stamp) => stamp
    case OpenFrame(_, stamp) => stamp
    case _ => 0
  }

  /** Whoever pays, pays the oldest debt; whoever may send has seen its stamp's worth of debts paid. */
  predicate PayerAt(t: Task, owed: seq<Debt>, paid: nat) {
    t.pc.L? ==>
      match t.pc.l
      case Pay(d) => owed != [] && owed[0] == d
      case Pop(d) => owed != [] && owed[0] == d
      case Held(stamp) => stamp <= paid
      case Send(stamp) => stamp <= paid
      case Flush(stamp) => stamp <= paid
      case _ => true
  }

  /** Paid on the wire, but still in the queue. */
  function BeingPopped(tasks: seq<Task>, holder: Option<nat>): seq<Debt> {
    if holder.Some? && holder.value < |tasks| && tasks[holder.value].pc.L? && tasks[holder.value].pc.l.Pop?
    then [tasks[holder.value].pc.l.debt] else []
  }

  ghost predicate DebtInv(s: State) {
    && (!s.cleared ==> s.recorded == s.paid + s.owed)
    && (forall i :: 0 <= i < |s.tasks| ==> PayerAt(s.tasks[i], s.owed, |s.paid|))
    && DebtFrames(s.wire) == s.paid + BeingPopped(s.tasks, s.holder)
    && (forall p :: 0 <= p < |s.wire| ==> Stamp(s.wire[p]) <= |DebtFrames(s.wire[..p])|)
  }

  // ---- what a step may do ----

  ghost predicate DebtLaw(s: State, t: Task, e: Effect) {
    && (e.debt.Paid? ==> t.pc == L(Pop(e.debt.debt)))
    && (e.debt.Forgiven? ==> t.pc == L(Clear))
    && (t.pc.L? && t.pc.l.Pop? ==> e.debt.Paid? && !(e.task.pc.L? && e.task.pc.l.Pop?))
    && (e.frame.Some? ==>
          match e.frame.value
          case DebtFrame(d) => t.pc == L(Pay(d)) && e.task.pc == L(Pop(d))
          case f => t.pc.L? && (Stamp(f) == 0 || t.pc == L(Flush(Stamp(f)))))
    && (e.task.pc.L? ==>
          match e.task.pc.l
          case Pay(d) => s.owed != [] && d == s.owed[0] && e.debt.SameDebts?
          case Pop(d) => t.pc == L(Pay(d)) && e.frame == Some(DebtFrame(d)) && e.debt.SameDebts?
          case Held(stamp) => stamp == 0 || (stamp == |s.recorded| && s.owed == [] && !s.cleared)
          case Send(stamp) => t.pc == L(Held(stamp))
          case Flush(stamp) => t.pc == L(Send(stamp))
          case _ => true)
  }

  /** Who moves a debt holds the write half, so nobody else is at it. */
  lemma OthersPayLater(s: State, i: nat, e: Effect, j: nat)
    requires Basic(s) && DebtInv(s) && i < |s.tasks| && j < |s.tasks| && j != i
    requires DebtLaw(s, s.tasks[i], e)
    ensures var s1 := Apply(s, i, e); PayerAt(s.tasks[j], s1.owed, |s1.paid|)
  {
    hide TableShape, AcceptedOpen, DebtFrames;
    assert TaskShape(s.tasks[i], |s.table.slots|, s.table.nextLocalId, s.handed);
    assert TaskShape(s.tasks[j], |s.table.slots|, s.table.nextLocalId, s.handed);
    assert PayerAt(s.tasks[j], s.owed, |s.paid|);
  }

  lemma OwnPay(s: State, i: nat, e: Effect)
    requires DebtInv(s) && i < |s.tasks| && DebtLaw(s, s.tasks[i], e)
    ensures var s1 := Apply(s, i, e); PayerAt(e.task, s1.owed, |s1.paid|)
  {
    hide DebtFrames, BeingPopped;
    assert PayerAt(s.tasks[i], s.owed, |s.paid|);
  }

  lemma RecordKept(s: State, i: nat, e: Effect)
    requires DebtInv(s) && i < |s.tasks| && DebtLaw(s, s.tasks[i], e)
    ensures var s1 := Apply(s, i, e); !s1.cleared ==> s1.recorded == s1.paid + s1.owed
  {
    hide DebtFrames, BeingPopped;
    assert PayerAt(s.tasks[i], s.owed, |s.paid|);
    if e.debt.Paid? { assert s.owed == [s.owed[0]] + s.owed[1..]; }
  }

  lemma WireGrows(s: State, i: nat, e: Effect)
    requires Basic(s) && DebtInv(s) && i < |s.tasks| && DebtLaw(s, s.tasks[i], e) && TaskLaw(s, s.tasks[i], e)
    ensures var s1 := Apply(s, i, e); DebtFrames(s1.wire) == s1.paid + BeingPopped(s1.tasks, s1.holder)
  {
    hide TableShape, AcceptedOpen, DebtFrames;
    var t := s.tasks[i];
    assert TaskShape(t, |s.table.slots|, s.table.nextLocalId, s.handed);
    assert t.half <==> s.holder == Some(i);
    if e.frame.Some? { DebtFramesPush(s.wire, e.frame.value); }
  }

  lemma StampsHold(s: State, i: nat, e: Effect, p: nat)
    requires DebtInv(s) && i < |s.tasks| && DebtLaw(s, s.tasks[i], e)
    requires p < |Apply(s, i, e).wire|
    ensures var wire := Apply(s, i, e).wire; Stamp(wire[p]) <= |DebtFrames(wire[..p])|
  {
    hide DebtFrames;
    var wire := Apply(s, i, e).wire;
    if p < |s.wire| {
      assert wire[..p] == s.wire[..p];
    } else {
      assert wire[..p] == s.wire;
      assert PayerAt(s.tasks[i], s.owed, |s.paid|);
    }
  }

  lemma ApplyKeepsDebt(s: State, i: nat, e: Effect)
    requires Basic(s) && DebtInv(s) && i < |s.tasks|
    requires Lawful(s, s.tasks[i], e) && DebtLaw(s, s.tasks[i], e)
    ensures DebtInv(Apply(s, i, e))
  {
    hide Basic, DebtLaw, TaskLaw, TableLaw, HandLaw, DebtFrames, PayerAt, BeingPopped;
    var s1 := Apply(s, i, e);
    OwnPay(s, i, e);
    RecordKept(s, i, e);
    WireGrows(s, i, e);
    forall j | 0 <= j < |s1.tasks| ensures PayerAt(s1.tasks[j], s1.owed, |s1.paid|) {
      if j != i { OthersPayLater(s, i, e, j); }
    }
    forall p | 0 <= p < |s1.wire| ensures Stamp(s1.wire[p]) <= |DebtFrames(s1.wire[..p])| {
      StampsHold(s, i, e, p);
    }
  }

  // ---- every step obeys the law ----

  lemma LockDebt(s: State, t: Task, l: LPc, pick: Pick)
    requires SoundTable(s.table) && t.pc == L(l) && LockStep(s, t, l, pick).Some?
    ensures DebtLaw(s, t, LockStep(s, t, l, pick).value)
  {
    hide StepHeld, StepReach, SendFails, PayStep, Resume;
    match l {
      case Pay(d) => PayDebt(s, t, d, pick);
      case Held(stamp) => HeldDebt(s, t, stamp);
      case Send(stamp) => SendDebt(s, t, stamp, pick);
      case Flush(stamp) => SendDebt(s, t, stamp, pick);
      case Wait => ResumeDebt(t, if pick == Cancel then Dropped else Errored);
      case Unlock(res, _) => ResumeDebt(t, res);
      case _ =>
    }
  }

  lemma PayDebt(s: State, t: Task, d: Debt, pick: Pick)
    requires t.pc == L(Pay(d)) && PayStep(t, d, pick).Some?
    ensures DebtLaw(s, t, PayStep(t, d, pick).value)
  {
  }

  lemma HeldDebt(s: State, t: Task, stamp: nat)
    requires SoundTable(s.table) && t.pc == L(Held(stamp))
    ensures DebtLaw(s, t, StepHeld(s, t, stamp))
  {
    hide SettleTake;
  }

  lemma SendDebt(s: State, t: Task, stamp: nat, pick: Pick)
    requires t.pc == L(Send(stamp)) || t.pc == L(Flush(stamp))
    ensures t.pc == L(Send(stamp)) ==> DebtLaw(s, t, StepReach(s, t, stamp))
    ensures SendFails(t, pick).Some? ==> DebtLaw(s, t, SendFails(t, pick).value)
  {
    hide Charged;
  }

  /** Letting the write half go, or giving up on it, moves no debt. */
  lemma ResumeDebt(t: Task, res: Res)
    requires t.pc.L? && (t.pc.l.Wait? || t.pc.l.Unlock?)
    ensures OffLock(Resume(t, res)) && !Resume(t, res).task.pc.L?
  {
  }

  /** Elsewhere debts are only added, and the write half is only waited for. */
  predicate OffLock(e: Effect) {
    !e.debt.Paid? && !e.debt.Forgiven? && e.frame.None? && (e.task.pc.L? ==> e.task.pc.l.Wait?)
  }

  lemma ReaderDebt(s: State, t: Task, r: RPc, pick: Pick)
    requires Shaped(s) && ReaderStep(s, t, r, pick).Some?
    ensures OffLock(ReaderStep(s, t, r, pick).value)
  {
    hide Dispatch, Touched, Credited, CloseRemote, At, WaitingAnswer;
  }

  lemma WriterDebt(s: State, i: nat, t: Task, w: WPc, pick: Pick)
    requires PcShape(t) && t.pc == W(w) && WriterStep(s, i, t, w, pick).Some?
    ensures OffLock(WriterStep(s, i, t, w, pick).value)
  {
    hide Serve, Leave, Enqueue;
  }

  lemma OpenerDebt(s: State, t: Task, o: OPc, pick: Pick)
    requires OpenerStep(s, t, o, pick).Some?
    ensures OffLock(OpenerStep(s, t, o, pick).value)
  {
    hide Allocate, WaitingAnswer;
  }

  lemma TakerDebt(s: State, t: Task, d: DPc, pick: Pick)
    requires SoundTable(s.table) && TakerStep(s, t, d, pick).Some?
    ensures OffLock(TakerStep(s, t, d, pick).value)
  {
    hide TakeBuffered, TakeAcks;
  }

  lemma RestDebt(s: State, t: Task, c: CPc, pick: Pick)
    ensures OffLock(CloserStep(s, t, c)) && (StartStep(s, pick).Some? ==> OffLock(StartStep(s, pick).value))
  {
    hide Allocate;
  }

  lemma StepDebt(s: State, i: nat, pick: Pick)
    requires Basic(s) && i < |s.tasks| && Step(s, i, pick).Some?
    ensures DebtLaw(s, s.tasks[i], Step(s, i, pick).value)
  {
    hide LockStep, WriterStep, OpenerStep, CloserStep, TakerStep, ReaderStep, StartStep;
    var t := s.tasks[i];
    assert TaskShape(t, |s.table.slots|, s.table.nextLocalId, s.handed);
    match t.pc {
      case L(l) => LockDebt(s, t, l, pick);
      case R(r) => ReaderDebt(s, t, r, pick);
      case W(w) => WriterDebt(s, i, t, w, pick);
      case O(o) => OpenerDebt(s, t, o, pick);
      case D(d) => TakerDebt(s, t, d, pick);
      case C(c) => RestDebt(s, t, c, pick);
      case _ => RestDebt(s, t, CFree, pick);
    }
  }

  lemma StepKeepsDebt(s: State, i: nat, pick: Pick)
    requires Basic(s) && DebtInv(s) && i < |s.tasks| && Step(s, i, pick).Some?
    ensures DebtInv(Next(s, i, pick))
  {
    hide Step, Lawful, DebtLaw, Apply, DebtInv;
    StepLawful(s, i, pick);
    StepDebt(s, i, pick);
    ApplyKeepsDebt(s, i, Step(s, i, pick).value);
  }

  // ---- what follows ----

  /**
   Until the device is gone, the paid debts on the wire are the oldest of those
   recorded, in order and each once, and the rest is still queued.
   */
  lemma SentInOrder(s: State)
    requires DebtInv(s) && !s.cleared
    ensures DebtFrames(s.wire) <= s.recorded
    ensures BeingPopped(s.tasks, s.holder) == [] ==> DebtFrames(s.wire) + s.owed == s.recorded
  {
    hide DebtFrames;
    var debts := BeingPopped(s.tasks, s.holder);
    if debts != [] {
      assert PayerAt(s.tasks[s.holder.value], s.owed, |s.paid|);
      assert s.recorded == s.paid + debts + s.owed[1..];
    }
  }

  /**
   A WRTE or OPEN at position `p` of the wire comes after every debt recorded
   before its sender last found the queue empty.
   */
  lemma DebtsComeFirst(s: State, p: nat)
    requires DebtInv(s) && !s.cleared && p < |s.wire|
    ensures Stamp(s.wire[p]) <= |s.recorded|
    ensures s.recorded[..Stamp(s.wire[p])] <= DebtFrames(s.wire[..p])
  {
    hide DebtFrames;
    SentInOrder(s);
    DebtFramesPrefix(s.wire, p);
  }
}
