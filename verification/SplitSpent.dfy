/**
 When credit for a WRTE the device has is taken back. A send that returns an error
 after the device took the packet either broke, which leaves the stream out of step,
 or found the device gone. Nothing else makes a refund of spent credit.
 */
module SplitSpent {
  import opened Prelude
  import opened SendQueues
  import opened Slots
  import opened ChannelTables
  import opened SplitMachine
  import opened SplitInvariants

  /** Spent credit is in a send that has not returned, or that went well. */
  predicate Settling(t: Task) {
    t.credit.Some? && t.credit.value.spent ==>
      t.pc == W(WCommit) || (t.pc.L? && (t.pc.l.Flush? || (t.pc.l.Unlock? && t.pc.l.res == Done)))
  }

  predicate NothingBack(book: Book) { !book.regretted && book.takenBack == 0 }

  /** What the device has stays paid for. */
  ghost predicate SentIsPaid(s: State) {
    && (forall i :: 0 <= i < |s.tasks| ==> Settling(s.tasks[i]))
    && (forall idx :: 0 <= idx < |s.books| ==> NothingBack(s.books[idx]))
  }

  ghost predicate PaidLaw(e: Effect) {
    Settling(e.task) && (e.book.SetBook? ==> NothingBack(e.book.book))
  }

  ghost predicate PaidSoFar(s: State, t: Task) {
    Shaped(s) && PcShape(t) && Settling(t) && forall idx :: 0 <= idx < |s.books| ==> NothingBack(s.books[idx])
  }

  lemma WriterPays(s: State, i: nat, t: Task, w: WPc, pick: Pick)
    requires PaidSoFar(s, t) && t.pc == W(w) && WriterStep(s, i, t, w, pick).Some?
    ensures PaidLaw(WriterStep(s, i, t, w, pick).value)
  {
    hide Serve, Leave, Enqueue, TryReserve, Refund, SoundTable;
  }

  lemma ResumePays(t: Task, res: Res)
    requires PcShape(t) && Settling(t) && t.pc.L? && (t.pc.l.Wait? || (t.pc.l.Unlock? && t.pc.l.res == res))
    ensures PaidLaw(Resume(t, res))
  {
  }

  lemma LockPays(s: State, t: Task, l: LPc, pick: Pick)
    requires PaidSoFar(s, t) && t.pc == L(l) && LockStep(s, t, l, pick).Some? && pick != Gone
    requires !LockStep(s, t, l, pick).value.flag.OutOfStep?
    ensures PaidLaw(LockStep(s, t, l, pick).value)
  {
    hide Resume, SoundTable, HeldRead;
    if l.Unlock? { ResumePays(t, l.res); }
    if l.Wait? { ResumePays(t, Dropped); ResumePays(t, Errored); }
    if l.Held? && t.kind.ReadCall? { HeldPays(s, t); }
  }

  lemma HeldPays(s: State, t: Task)
    requires SoundTable(s.table) && PcShape(t) && t.pc.L? && t.kind.ReadCall?
    ensures forall send :: PaidLaw(HeldRead(s, t, send))
  {
  }

  lemma GotPays(s: State, t: Task, pkt: Packet)
    requires PaidSoFar(s, t) && t.pc == R(RGot(pkt))
    ensures PaidLaw(StepGot(s, t, pkt))
  {
    hide Dispatch, SoundTable, Touched;
  }

  lemma ReaderPays(s: State, t: Task, r: RPc, pick: Pick)
    requires PaidSoFar(s, t) && t.pc == R(r) && ReaderStep(s, t, r, pick).Some?
    ensures PaidLaw(ReaderStep(s, t, r, pick).value)
  {
    hide StepGot, SoundTable, CloseRemote;
    if r.RGot? { GotPays(s, t, r.pkt); }
  }

  lemma OthersPay(s: State, i: nat, pick: Pick)
    requires i < |s.tasks| && PaidSoFar(s, s.tasks[i]) && Step(s, i, pick).Some?
    requires !s.tasks[i].pc.W? && !s.tasks[i].pc.L? && !s.tasks[i].pc.R?
    ensures PaidLaw(Step(s, i, pick).value)
  {
    hide SoundTable, WriterStep, LockStep, ReaderStep, TakeBuffered, Allocate;
  }

  lemma StepPays(s: State, i: nat, pick: Pick)
    requires i < |s.tasks| && PaidSoFar(s, s.tasks[i]) && Step(s, i, pick).Some?
    requires pick != Gone && !Step(s, i, pick).value.flag.OutOfStep?
    ensures PaidLaw(Step(s, i, pick).value)
  {
    hide WriterStep, LockStep, OpenerStep, CloserStep, TakerStep, ReaderStep, StartStep, PaidLaw, PaidSoFar;
    var t := s.tasks[i];
    match t.pc {
      case W(w) => WriterPays(s, i, t, w, pick);
      case L(l) => LockPays(s, t, l, pick);
      case R(r) => ReaderPays(s, t, r, pick);
      case _ => OthersPay(s, i, pick);
    }
  }

  lemma StepKeepsPaid(s: State, i: nat, pick: Pick)
    requires Basic(s) && i < |s.tasks| && Step(s, i, pick).Some?
    requires SentIsPaid(s) && pick != Gone && !Apply(s, i, Step(s, i, pick).value).desync
    ensures SentIsPaid(Apply(s, i, Step(s, i, pick).value))
  {
    hide Step, PcShape, TableShape, AcceptedOpen, OneEach, SoundTable, Settling, NothingBack, ChangeTable, ChangeLines,
         ChangeAnswers;
    assert TaskShape(s.tasks[i], |s.table.slots|, s.table.nextLocalId, s.handed);
    StepPays(s, i, pick);
  }
}
