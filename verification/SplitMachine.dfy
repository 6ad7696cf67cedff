/**
 A split connection as a transition system (libadb/src/split).

 Any number of calls run at once on one connection: writers, openers, closers,
 channel readers, acceptors and the one `Reader` that receives packets. Each
 pending call is a `Task`: the point it has reached and the guards it holds
 there. One step is one lock hold, one flag access or one outcome of a
 transport write, so every interleaving of the calls is a run. A call may be
 dropped at any of its awaits (`Cancel`); what its guards then do are further
 steps. The device is the environment: it sends any packet, takes a write,
 breaks it or is found gone.

 An event signal counts how often it was notified. A listener remembers the
 count it registered at, so it sleeps exactly while the count has not moved.
 */
module SplitMachine {
  import opened Prelude
  import opened SendQueues
  import opened Slots
  import opened ChannelTables

  // ---- what the device is owed ----

  datatype Owed = Okay(ack: PendingAck) | CloseIt(ids: ChannelIds)

  /**
   Why a debt was recorded; history only, no step depends on it. `from`: the id
   the faulty packet came from. A READY is closed on its own account, or on that
   of a packet that made its channel fail before anybody had it.
   */
  datatype Cause = ByAck | ByCaller | ByFault(from: nat) | ByAnswer(answer: nat, fault: Option<nat>)

  datatype Debt = Debt(what: Owed, cause: Cause)

  /** One whole packet on the wire. `stamp`: the debts recorded at its sender's last empty check. */
  datatype Frame =
    | DebtFrame(debt: Debt)
    | WriteFrame(ids: ChannelIds, len: nat, stamp: nat)
    | OpenFrame(local: nat, stamp: nat)
    | OtherFrame

  // ---- calls under way ----

  datatype Kind = Nobody | WriterCall | OpenCall | CloseCall | ReadCall | AcceptCall | DirectCall | Receiver

  datatype Res = Done | Errored | Dropped

  /** write_channel and acquire_credit. */
  datatype WPc = WNext | WListen | WTry | WLive | WPark | WLeave | WMore | WIds | WRefund | WCommit

  /**
   lock_write and lock_write_half: wait, look at the debts, pay one, use the half,
   let it go. In `Flush` the device has the whole packet, but the send has not returned.
   */
  datatype LPc =
    | Wait | Look | Pay(debt: Debt) | Pop(debt: Debt) | Clear
    | Held(stamp: nat) | Send(stamp: nat) | Flush(stamp: nat) | Unlock(res: Res, next: nat)

  /** open_channel. */
  datatype OPc = OAlloc | OStep | OListen | OLook | OLive | OPark | OGuard

  /** close_channel. */
  datatype CPc = CFree | CWake | COwe | CNotify

  /** read_channel on the `Writer`. */
  datatype DPc = DTake | DLive | DPark

  /** The `Reader`. */
  datatype RPc =
    | RIdle | RTop | RPay | RIntr | RIntr2 | RRead
    | RGot(pkt: Packet)
    | RAct(outcome: Outcome, answer: Option<nat>, from: nat)
    | RWakeBack(idx: nat)
    | RFail(idx: nat, ids: ChannelIds, fault: Fault, cause: Cause)
    | RFailWake(idx: nat, ids: ChannelIds, cause: Cause)
    | ROwe(debt: Debt) | RNotify | RBack
    | RStop1 | RStop2(inStep: bool) | RStop3 | RWakeAll(next: nat)

  /** The point a call has reached: what it does next. `WakeRest` wakes one signal and is over. */
  datatype Pc =
    | Rest
    | WakeRest(idx: nat)
    | AFree
    | W(w: WPc) | L(l: LPc) | O(o: OPc) | C(c: CPc) | D(d: DPc) | R(r: RPc)

  /** `QueueGuard`: the place in the channel's queue, and the arrival number (history). */
  datatype Seat = Seat(place: nat, ticket: nat)

  /** `CreditGuard`: reserved credit; `spent` once the device has its WRTE. */
  datatype Credit = Credit(n: nat, spent: bool)

  /**
   A call: where it is and what it holds. `armed` is a live `SlotGuard`, or the
   slot `accept` reserved; `half` the write half; `ear` a registered listener.
   */
  datatype Task = Task(
    pc: Pc,
    kind: Kind,
    ch: ChannelId,
    left: nat,
    ids: ChannelIds,
    want: nat,
    receiving: bool,
    seat: Option<Seat>,
    credit: Option<Credit>,
    armed: bool,
    half: bool,
    ear: Option<nat>)

  const NO_CHANNEL := ChannelId(0, 0)

  const IDLE := Task(Rest, Nobody, NO_CHANNEL, 0, ChannelIds(0, 0), 0, false, None, None, false, false, None)

  const READER := IDLE.(pc := R(RIdle), kind := Receiver)

  // ---- history ----

  /** A writer's place in line: its arrival number and who it is. */
  datatype Ticket = Ticket(no: nat, task: nat)

  /**
   Per slot: credit granted, bytes of WRTEs the device has, WRTEs it has not yet
   OKAYed, and the READY that opened the channel. `takenBack`: credit refunded for
   WRTEs the device has, because their send failed after all. Without delayed ack,
   how a second go-ahead came about: `regretted`, by such a refund while no go-ahead
   was free; `rude`, by an OKAY for a WRTE the device had not got while one was reserved.
   */
  datatype Book = Book(
    granted: nat, sent: nat, outstanding: nat, answer: Option<nat>, takenBack: nat, regretted: bool, rude: bool)

  const BLANK := Book(0, 0, 0, None, 0, false, false)

  /** What became of a READY that answered one of our OPENs. */
  datatype Fate = Waiting | Handed | Closing | ClosedOff

  /** `given`: whether a caller got the channel, and if so whether it had failed by then. */
  datatype Answer = Answer(ids: ChannelIds, fate: Fate, given: Option<bool>)

  datatype State = State(
    table: Table,
    maxChunk: nat,
    sig: seq<nat>,
    owed: seq<Debt>,
    holder: Option<nat>,
    desync: bool,
    stopped: bool,
    endedInStep: bool,
    tasks: seq<Task>,
    // history
    handed: set<nat>,
    lines: seq<seq<Ticket>>,
    books: seq<Book>,
    nextTicket: nat,
    recorded: seq<Debt>,
    paid: seq<Debt>,
    cleared: bool,
    wire: seq<Frame>,
    answers: seq<Answer>)

  /** Signals are one per slot, then the receive signal. */
  function ReceiveSignal(s: State): nat { |s.table.slots| }

  /** `check_in_step`. */
  predicate InStep(s: State) { !s.desync || s.endedInStep }

  /** `check_live`. */
  predicate Live(s: State) { InStep(s) && !s.stopped }

  predicate Unspent(t: Task) { t.credit.Some? && !t.credit.value.spent }

  predicate WShape(w: WPc, t: Task) {
    && ((w.WListen? || w.WTry? || w.WLive? || w.WPark? || w.WLeave?) <==> t.seat.Some?)
    && (w.WTry? || w.WLive? || w.WPark? ==> t.ear.Some?)
    && (if w.WMore? || w.WIds? then Unspent(t)
        else if w.WRefund? then t.credit.Some?
        else if w.WCommit? then t.credit.Some? && t.credit.value.spent
        else t.credit.None?)
  }

  predicate LShape(l: LPc, t: Task) {
    && t.seat.None? && t.kind != Nobody
    && (t.half <==> l != Wait)
    && (t.armed <==> t.kind.OpenCall? || t.kind.AcceptCall?)
    && (t.credit.Some? <==> t.kind.WriterCall?)
    && (t.credit.Some? ==>
          && (l.Flush? || (l.Unlock? && l.res == Done) ==> t.credit.value.spent)
          && (t.credit.value.spent ==> l.Flush? || l.Unlock?))
  }

  /** What each point of a call takes for granted about the guards it holds. */
  predicate PcShape(t: Task) {
    && (!t.pc.W? && !t.pc.L? ==> t.seat.None? && t.credit.None?)
    && (!t.pc.L? ==> !t.half)
    && (match t.pc
        case Rest => t.kind.Nobody? && !t.armed
        case WakeRest(_) => t.kind.Nobody? && !t.armed
        case AFree => t.kind.AcceptCall? && t.armed
        case W(w) => t.kind.WriterCall? && !t.armed && WShape(w, t)
        case L(l) => LShape(l, t)
        case O(o) =>
          t.kind.OpenCall? && (t.armed <==> o != OAlloc) && (o.OLook? || o.OLive? || o.OPark? ==> t.ear.Some?)
        case C(_) => t.kind.CloseCall? && !t.armed
        case D(d) => t.kind.ReadCall? && !t.armed && (d.DPark? ==> t.ear.Some?)
        case R(r) => t.kind.Receiver? && !t.armed && (r.RIntr2? || r.RRead? ==> t.ear.Some?))
  }

  predicate SoundTable(t: Table) {
    forall i :: 0 <= i < |t.slots| && t.slots[i].Some? ==> Sound(t.slots[i].value)
  }

  predicate Shaped(s: State) {
    && |s.table.slots| == |s.lines| == |s.books|
    && |s.sig| == |s.table.slots| + 1
    && SoundTable(s.table)
  }

  // ---- what one step changes ----

  datatype TableChange = SameTable | SetAt(idx: nat, slot: Slot) | Add(ch: ChannelId, slot: Slot) | Drop(ch: ChannelId)

  /** The line of the channel the call is about. */
  datatype LineChange = SameLine | Join | ServeFirst | Quit(ticket: Ticket)

  datatype BookChange = SameBook | SetBook(idx: nat, book: Book)

  datatype DebtChange = SameDebts | Push(debt: Debt) | Paid(debt: Debt) | Forgiven

  datatype FlagChange = SameFlags | OutOfStep | Ended(inStep: bool) | Stopped

  datatype HalfChange = SameHalf | Taken | Freed

  datatype NoteChange =
    NoNote | NewAnswer(answer: Answer) | SetFate(r: nat, fate: Fate) | HandOver(r: nat, failed: bool)

  datatype Effect = Effect(
    task: Task,
    table: TableChange,
    line: LineChange,
    book: BookChange,
    wake: Option<nat>,
    debt: DebtChange,
    frame: Option<Frame>,
    flag: FlagChange,
    half: HalfChange,
    hand: bool,
    note: NoteChange)

  /** Nothing changes but the call itself. */
  function Now(t: Task): Effect {
    Effect(t, SameTable, SameLine, SameBook, None, SameDebts, None, SameFlags, SameHalf, false, NoNote)
  }

  /** The call moves on, holding what it held. */
  function Go(t: Task, pc: Pc): Effect { Now(t.(pc := pc)) }

  /** The call is over, but for one last wake it may still owe a signal. */
  function End(pc: Pc := Rest): Effect { Now(IDLE.(pc := pc)) }

  function ChangeTable(table: Table, c: TableChange): Table {
    match c
    case SameTable => table
    case SetAt(idx, slot) => if idx < |table.slots| then SetSlot(table, idx, Some(slot)) else table
    case Add(ch, slot) =>
      if ch.slot < |table.slots|
      then SetSlot(table, ch.slot, Some(slot)).(nextLocalId := NextId(table.nextLocalId)) else table
    case Drop(ch) => Free(table, ch).0
  }

  function RemoveTicket(line: seq<Ticket>, k: Ticket): seq<Ticket> {
    if line == [] then [] else if line[0] == k then line[1..] else [line[0]] + RemoveTicket(line[1..], k)
  }

  function ChangeLine(line: seq<Ticket>, c: LineChange, next: Ticket): seq<Ticket> {
    match c
    case SameLine => line
    case Join => line + [next]
    case ServeFirst => if line == [] then [] else line[1..]
    case Quit(k) => RemoveTicket(line, k)
  }

  /** A new slot starts with an empty line; otherwise only the call's own channel's line moves. */
  function ChangeLines(lines: seq<seq<Ticket>>, e: Effect, next: Ticket): seq<seq<Ticket>> {
    if e.table.Add? then if e.table.ch.slot < |lines| then lines[e.table.ch.slot := []] else lines
    else if e.line.SameLine? || e.task.ch.slot >= |lines| then lines
    else lines[e.task.ch.slot := ChangeLine(lines[e.task.ch.slot], e.line, next)]
  }

  function ChangeBooks(books: seq<Book>, c: BookChange): seq<Book> {
    if c.SetBook? && c.idx < |books| then books[c.idx := c.book] else books
  }

  function ChangeAnswers(answers: seq<Answer>, c: NoteChange): seq<Answer> {
    match c
    case NewAnswer(a) => answers + [a]
    case SetFate(r, fate) => if r < |answers| then answers[r := answers[r].(fate := fate)] else answers
    case HandOver(r, failed) =>
      if r < |answers|
      then answers[r := answers[r].(given := Some(failed), fate := if failed then answers[r].fate else Handed)]
      else answers
    case NoNote => answers
  }

  /** Notify every listener on one signal. */
  function ChangeSig(sig: seq<nat>, wake: Option<nat>): seq<nat> {
    if wake.Some? && wake.value < |sig| then sig[wake.value := sig[wake.value] + 1] else sig
  }

  function Apply(s: State, i: nat, e: Effect): State
    requires i < |s.tasks|
  {
    State(
      ChangeTable(s.table, e.table),
      s.maxChunk,
      ChangeSig(s.sig, e.wake),
      (match e.debt
       case Push(d) => s.owed + [d]
       case Paid(_) => if s.owed == [] then [] else s.owed[1..]
       case Forgiven => []
       case SameDebts => s.owed),
      (match e.half case Taken => Some(i) case Freed => None case SameHalf => s.holder),
      s.desync || e.flag.OutOfStep?,
      s.stopped || e.flag.Stopped?,
      if e.flag.Ended? then e.flag.inStep else s.endedInStep,
      s.tasks[i := e.task],
      if e.hand then s.handed + {s.tasks[i].ch.local} else s.handed,
      ChangeLines(s.lines, e, Ticket(s.nextTicket, i)),
      ChangeBooks(s.books, e.book),
      if e.line.Join? then s.nextTicket + 1 else s.nextTicket,
      if e.debt.Push? then s.recorded + [e.debt.debt] else s.recorded,
      if e.debt.Paid? then s.paid + [e.debt.debt] else s.paid,
      s.cleared || e.debt.Forgiven?,
      if e.frame.Some? then s.wire + [e.frame.value] else s.wire,
      ChangeAnswers(s.answers, e.note))
  }

  // ---- the choices of the environment ----

  datatype Pick =
    | Run
    | Cancel
    | Gone
    | Broken
    | StartWrite(ch: ChannelId, len: nat)
    | StartOpen
    | StartClose(ch: ChannelId)
    | StartRead(ch: ChannelId, want: nat)
    | StartAccept(remote: nat, credit: nat)
    | StartDirect
    | Got(pkt: Packet)
    | StreamOver
    | FailCall

  // ---- writers ----

  function Want(s: State, left: nat): nat { Min(left, Max(s.maxChunk, 1)) }

  /** Top of the chunk loop: take a place in the queue. */
  function StepNext(s: State, t: Task): Effect {
    var slot := Get(s.table, t.ch);
    if t.left == 0 || slot.None? || IsClosed(slot.value) then End()
    else
      var q := slot.value.queue;
      Now(t.(pc := W(WListen), seat := Some(Seat(q.tail, s.nextTicket)), ear := None))
        .(table := SetAt(t.ch.slot, slot.value.(queue := Enqueue(q))), line := Join)
  }

  /** `signal.listen()`. */
  function StepListen(s: State, t: Task, idx: nat, pc: Pc): Effect
    requires idx < |s.sig|
  {
    Now(t.(pc := pc, ear := Some(s.sig[idx])))
  }

  predicate Woken(s: State, t: Task, idx: nat) {
    idx < |s.sig| && t.ear.Some? && t.ear.value < s.sig[idx]
  }

  /** `try_reserve`. */
  function StepTry(s: State, t: Task): Effect
    requires t.seat.Some?
  {
    var slot := Get(s.table, t.ch);
    if slot.None? || IsClosed(slot.value) then Go(t, W(WLeave))
    else
      var r := TryReserve(slot.value, Want(s, t.left));
      if slot.value.queue.head != t.seat.value.place || r.None? then Go(t, W(WLive))
      else
        var after := r.value.0;
        Now(t.(pc := W(if Budget(after).Some? then WMore else WIds),
               seat := None, ear := None, credit := Some(Credit(r.value.1, false))))
          .(table := SetAt(t.ch.slot, after.(queue := Serve(after.queue))), line := ServeFirst)
  }

  /** `QueueGuard::drop` of a writer that was not served. */
  function StepLeave(s: State, i: nat, t: Task): Effect
    requires t.seat.Some?
  {
    var slot := Get(s.table, t.ch);
    if slot.None? then End()
    else
      var q := slot.value.queue;
      Now(IDLE.(pc := if t.seat.value.place == q.head then WakeRest(t.ch.slot) else Rest, ch := t.ch))
        .(table := SetAt(t.ch.slot, slot.value.(queue := Leave(q, t.seat.value.place))),
          line := Quit(Ticket(t.seat.value.ticket, i)))
  }

  function StepIds(s: State, t: Task): Effect {
    var slot := Get(s.table, t.ch);
    if slot.None? || Ids(slot.value).None? then Go(t, W(WRefund))
    else Now(t.(pc := L(Wait), ids := Ids(slot.value).value))
  }

  /** Credit is refunded for a WRTE whose send failed, though the device has it. */
  function Regretted(s: State, t: Task, slot: Slot): BookChange
    requires t.credit.Some?
  {
    if t.credit.value.spent && t.ch.slot < |s.books| then
      var b := s.books[t.ch.slot];
      SetBook(t.ch.slot, b.(takenBack := b.takenBack + t.credit.value.n, regretted := b.regretted || !slot.wrteAcked))
    else SameBook
  }

  /** `CreditGuard::drop` of a write that was not sent, or whose send failed. */
  function StepRefund(s: State, t: Task): Effect
    requires t.credit.Some?
  {
    var slot := Get(s.table, t.ch);
    if slot.None? || slot.value.queue.sending == 0 then End(WakeRest(t.ch.slot))
    else
      End(WakeRest(t.ch.slot))
        .(table := SetAt(t.ch.slot, Refund(slot.value.(queue := Finish(slot.value.queue)), t.credit.value.n)),
          book := Regretted(s, t, slot.value))
  }

  /** `CreditGuard::drop` of a write that went out; on to the next chunk. */
  function StepCommit(s: State, t: Task): Effect
    requires t.credit.Some?
  {
    var slot := Get(s.table, t.ch);
    var next := t.(pc := W(WNext), credit := None, left := Max(0, t.left - t.credit.value.n));
    if slot.None? || slot.value.queue.sending == 0 then Now(next)
    else Now(next).(table := SetAt(t.ch.slot, slot.value.(queue := Finish(slot.value.queue))))
  }

  function WriterStep(s: State, i: nat, t: Task, w: WPc, pick: Pick): Option<Effect>
    requires PcShape(t) && t.pc == W(w)
  {
    if w.WPark? && pick == Cancel then Some(Go(t, W(WLeave)))
    else if pick != Run then None
    else
      match w
      case WNext => Some(StepNext(s, t))
      case WListen => if t.ch.slot < |s.sig| then Some(StepListen(s, t, t.ch.slot, W(WTry))) else None
      case WTry => Some(StepTry(s, t))
      case WLive => Some(Go(t, W(if Live(s) then WPark else WLeave)))
      case WPark => if Woken(s, t, t.ch.slot) then Some(Go(t, W(WListen))) else None
      case WLeave => Some(StepLeave(s, i, t))
      case WMore => Some(Go(t, W(WIds)).(wake := Some(t.ch.slot)))
      case WIds => Some(StepIds(s, t))
      case WRefund => Some(StepRefund(s, t))
      case WCommit => Some(StepCommit(s, t))
  }

  // ---- the write half ----

  /** `lock_write` pays what is owed first; `lock_write_half` does not. */
  predicate PaysFirst(kind: Kind) { kind.WriterCall? || kind.OpenCall? || kind.CloseCall? || kind.Receiver? }

  /** How a call goes on once it has let the write half go, or given up waiting for it. */
  function Resume(u: Task, res: Res): Effect {
    var t := u.(half := false);
    match t.kind
    case WriterCall => Go(t, if res == Done then W(WCommit) else W(WRefund))
    case OpenCall => Go(t, if res == Done then O(OStep) else O(OGuard))
    case AcceptCall => if res == Done then End().(hand := true) else Go(t, AFree)
    case ReadCall => if res == Dropped then End() else Go(t, D(DTake))
    case Receiver => if res != Done then Now(READER) else Go(t, if t.receiving then R(RIntr) else R(RBack))
    case _ => End()
  }

  /** A send that broke or was abandoned leaves the stream out of step. */
  function Spoil(t: Task, res: Res): Effect { Go(t, L(Unlock(res, 0))).(flag := OutOfStep) }

  function OwnFrame(t: Task, stamp: nat): Frame {
    match t.kind
    case WriterCall => WriteFrame(t.ids, if t.credit.Some? then t.credit.value.n else 0, stamp)
    case OpenCall => OpenFrame(t.ch.local, stamp)
    case _ => OtherFrame
  }

  /** The device has a WRTE: its bytes are charged to its channel's book. */
  function Charged(s: State, t: Task): BookChange {
    if t.credit.Some? && Get(s.table, t.ch).Some? && t.ch.slot < |s.books| then
      var b := s.books[t.ch.slot];
      SetBook(t.ch.slot, b.(sent := b.sent + t.credit.value.n, outstanding := b.outstanding + 1))
    else SameBook
  }

  /** The device has the packet, whatever becomes of the send. */
  function StepReach(s: State, t: Task, stamp: nat): Effect {
    Now(t.(pc := L(Flush(stamp)), credit := if t.credit.Some? then Some(t.credit.value.(spent := true)) else None))
      .(book := Charged(s, t))
  }

  /** How a send fails. */
  function SendFails(t: Task, pick: Pick): Option<Effect> {
    match pick
    case Gone => Some(Go(t, L(Unlock(Errored, 0))))
    case Broken => Some(Spoil(t, Errored))
    case Cancel => Some(Spoil(t, Dropped))
    case _ => None
  }

  function PayStep(t: Task, d: Debt, pick: Pick): Option<Effect> {
    match pick
    case Run => Some(Go(t, L(Pop(d))).(frame := Some(DebtFrame(d))))
    case Gone => Some(Go(t, L(Clear)))
    case Broken => Some(Spoil(t, Errored))
    case Cancel => Some(Spoil(t, Dropped))
    case _ => None
  }

  /** The write half is ours: start our own packet, if there is one. */
  function StepHeld(s: State, t: Task, stamp: nat): Effect
    requires SoundTable(s.table)
  {
    var send := if s.desync then L(Unlock(Errored, 0)) else L(Send(stamp));
    match t.kind
    case CloseCall => Go(t, L(Unlock(Done, 0)))
    case Receiver => Go(t, L(Unlock(Done, 0)))
    case ReadCall => HeldRead(s, t, send)
    case _ => Go(t, send)
  }

  /** `acknowledge_take`: settle what the read will take, and send its OKAY. */
  function HeldRead(s: State, t: Task, send: Pc): Effect
    requires SoundTable(s.table)
  {
    var slot := Get(s.table, t.ch);
    if !Live(s) || slot.None? then Go(t, L(Unlock(Errored, 0)))
    else
      var settled := SettleTake(slot.value, t.want);
      if settled.1.None? then Go(t, L(Unlock(Errored, 0)))
      else Go(t, send).(table := SetAt(t.ch.slot, settled.0))
  }

  function LockStep(s: State, t: Task, l: LPc, pick: Pick): Option<Effect>
    requires SoundTable(s.table)
  {
    match l
    case Wait =>
      if pick == Cancel then Some(Resume(t, Dropped))
      else if pick == FailCall && t.kind.ReadCall? && !Live(s) then Some(Resume(t, Errored))
      else if pick == Run && s.holder.None? then
        Some(Go(t.(half := true), if PaysFirst(t.kind) then L(Look) else L(Held(0))).(half := Taken))
      else None
    case Look =>
      if pick != Run then None
      else if s.owed == [] then Some(Go(t, L(Held(if s.cleared then 0 else |s.recorded|))))
      else if s.desync then Some(Go(t, L(Unlock(Errored, 0))))
      else Some(Go(t, L(Pay(s.owed[0]))))
    case Pay(d) => PayStep(t, d, pick)
    case Pop(d) => if pick == Run then Some(Go(t, L(Look)).(debt := Paid(d))) else None
    case Clear => if pick == Run then Some(Go(t, L(Held(0))).(debt := Forgiven)) else None
    case Held(stamp) =>
      if pick == Run then Some(StepHeld(s, t, stamp))
      else if pick == FailCall && t.kind.OpenCall? then Some(Go(t, L(Unlock(Errored, 0))))
      else None
    case Send(stamp) => if pick == Run then Some(StepReach(s, t, stamp)) else SendFails(t, pick)
    case Flush(stamp) =>
      if pick == Run then Some(Go(t, L(Unlock(Done, 0))).(frame := Some(OwnFrame(t, stamp)))) else SendFails(t, pick)
    case Unlock(res, next) =>
      if pick != Run then None
      else if s.desync && next < |s.sig| then Some(Go(t, L(Unlock(res, next + 1))).(wake := Some(next)))
      else Some(Resume(t, res).(half := Freed))
  }

  // ---- openers, closers, acceptors ----

  function StepAlloc(s: State): Effect {
    match Allocate(s.table)
    case None => End()
    case Some((t, ch)) =>
      Now(IDLE.(pc := L(Wait), kind := OpenCall, ch := ch, armed := true))
        .(table := Add(ch, OpeningSlot(ch.local, t.policy)), book := SetBook(ch.slot, BLANK))
  }

  function StepAccept(s: State, remote: nat, credit: nat): Effect {
    match Allocate(s.table)
    case None => Now(IDLE.(pc := L(Wait), kind := DirectCall))
    case Some((t, ch)) =>
      Now(IDLE.(pc := L(Wait), kind := AcceptCall, ch := ch, armed := true))
        .(table := Add(ch, AcceptedSlot(ChannelIds(ch.local, remote), credit, t.policy)),
          book := SetBook(ch.slot, BLANK.(granted := if t.policy.ack == Delayed then credit else 0)))
  }

  /** The READY of the slot at `idx`, if nobody has got the channel or closed it yet. */
  function WaitingAnswer(s: State, idx: nat): Option<nat> {
    if idx < |s.books| && s.books[idx].answer.Some? && s.books[idx].answer.value < |s.answers|
       && s.answers[s.books[idx].answer.value].fate == Waiting
    then s.books[idx].answer else None
  }

  function FateNote(r: Option<nat>, fate: Fate): NoteChange {
    if r.Some? then SetFate(r.value, fate) else NoNote
  }

  /** `await_open_ack` looks at its slot: the channel is handed over, lost or still opening. */
  function StepLook(s: State, t: Task): Effect {
    var slot := Get(s.table, t.ch);
    if slot.None? then Go(t, O(OGuard))
    else if slot.value.state == Opening then Go(t, O(OLive))
    else if slot.value.state == Closed && Ids(slot.value).None? then Go(t, O(OGuard))
    else End().(hand := true, note := HandNote(s, t.ch.slot, IsFailed(slot.value)))
  }

  /** The channel of the slot's READY goes to its caller. */
  function HandNote(s: State, idx: nat, failed: bool): NoteChange {
    if idx < |s.books| && s.books[idx].answer.Some? && s.books[idx].answer.value < |s.answers|
    then HandOver(s.books[idx].answer.value, failed) else NoNote
  }

  function CauseOf(answer: Option<nat>, otherwise: Cause): Cause {
    if answer.Some? then ByAnswer(answer.value, None) else otherwise
  }

  /** `SlotGuard::drop`, still armed. */
  function StepGuard(s: State, t: Task): Effect {
    var slot := Get(s.table, t.ch);
    if slot.None? then End()
    else if Ids(slot.value).None? || IsFailed(slot.value) then End().(table := Drop(t.ch))
    else
      var r := WaitingAnswer(s, t.ch.slot);
      End(WakeRest(ReceiveSignal(s)))
        .(table := Drop(t.ch), debt := Push(Debt(CloseIt(Ids(slot.value).value), CauseOf(r, ByCaller))),
          note := FateNote(r, ClosedOff))
  }

  /** `close_channel` frees the slot. */
  function StepFree(s: State, t: Task): Effect {
    var slot := Get(s.table, t.ch);
    if slot.None? || Ids(slot.value).None? then End()
    else Now(t.(pc := C(CWake), ids := Ids(slot.value).value)).(table := Drop(t.ch))
  }

  function OpenerStep(s: State, t: Task, o: OPc, pick: Pick): Option<Effect> {
    if o.OPark? && pick == Cancel then Some(Go(t, O(OGuard)))
    else if pick != Run then None
    else
      match o
      case OAlloc => if s.table.nextLocalId < U32_MAX then Some(StepAlloc(s)) else None
      case OStep => Some(Go(t, O(if InStep(s) then OListen else OGuard)))
      case OListen => if t.ch.slot < |s.sig| then Some(StepListen(s, t, t.ch.slot, O(OLook))) else None
      case OLook => Some(StepLook(s, t))
      case OLive => Some(Go(t, O(if Live(s) then OPark else OGuard)))
      case OPark => if Woken(s, t, t.ch.slot) then Some(Go(t, O(OStep))) else None
      case OGuard => Some(StepGuard(s, t))
  }

  function CloserStep(s: State, t: Task, c: CPc): Effect {
    match c
    case CFree => StepFree(s, t)
    case CWake => Go(t, C(COwe)).(wake := Some(t.ch.slot))
    case COwe => Go(t, C(CNotify)).(debt := Push(Debt(CloseIt(t.ids), ByCaller)))
    case CNotify => Go(t, L(Wait)).(wake := Some(ReceiveSignal(s)))
  }

  // ---- channel readers ----

  function StepTake(s: State, t: Task): Effect
    requires SoundTable(s.table)
  {
    var slot := Get(s.table, t.ch);
    if slot.None? || (!HasData(slot.value) && !InStep(s)) then End()
    else if Live(s) && TakeAcks(slot.value, t.want) then Go(t, L(Wait))
    else
      var taken := TakeBuffered(slot.value, t.want);
      if taken.1.Nothing? then Go(t, D(DLive)) else End().(table := SetAt(t.ch.slot, taken.0))
  }

  function TakerStep(s: State, t: Task, d: DPc, pick: Pick): Option<Effect>
    requires SoundTable(s.table)
  {
    if d.DPark? && pick == Cancel then Some(End())
    else if pick != Run then None
    else
      match d
      case DTake => Some(StepTake(s, t))
      case DLive =>
        if !Live(s) then Some(End())
        else if t.ear.Some? then Some(Go(t, D(DPark)))
        else if t.ch.slot < |s.sig| then Some(StepListen(s, t, t.ch.slot, D(DTake)))
        else None
      case DPark => if Woken(s, t, t.ch.slot) then Some(Go(t.(ear := None), D(DTake))) else None
  }

  // ---- the Reader ----

  /** The book of a channel whose slot took a READY. */
  function Credited(s: State, idx: nat, before: Slot, pkt: Packet): Book
    requires idx < |s.books|
  {
    var b := s.books[idx];
    var credit :=
      if before.policy.ack == Delayed && ReadyCredit(pkt.data).Some? then ReadyCredit(pkt.data).value else 0;
    if before.state == Opening then b.(granted := credit, answer := Some(|s.answers|))
    else b.(granted := b.granted + credit, outstanding := Max(0, b.outstanding - 1),
              rude := b.rude || (before.policy.ack == Classic && b.outstanding == 0 && !before.wrteAcked))
  }

  /** The READY a refused answer is about, if the outcome is one. */
  predicate RefusedAnswer(outcome: Outcome) {
    outcome.StrayReady? || (outcome.ChannelFault? && outcome.opening && outcome.fault == ShortReadyPayload)
  }

  /** A packet reaches the table. */
  function StepGot(s: State, t: Task, pkt: Packet): Effect
    requires SoundTable(s.table)
  {
    var out := Dispatch(s.table, pkt);
    var e := Go(t, R(RAct(out.1, if RefusedAnswer(out.1) then Some(|s.answers|) else None, pkt.arg0)))
             .(table := Touched(s.table, out));
    match out.1
    case CreditGranted(idx) =>
      if idx >= |s.books| || idx >= |s.table.slots| || s.table.slots[idx].None? then e
      else
        var before := s.table.slots[idx].value;
        e.(book := SetBook(idx, Credited(s, idx, before, pkt)),
           note := if before.state == Opening
                   then NewAnswer(Answer(ChannelIds(before.local, pkt.arg0), Waiting, None)) else NoNote)
    case StrayReady(ids) => e.(note := NewAnswer(Answer(ids, Closing, None)))
    case ChannelFault(_, ids, _, _) =>
      if RefusedAnswer(out.1) then e.(note := NewAnswer(Answer(ids, Closing, None))) else e
    case _ => e
  }

  /** The one slot a dispatched packet changed. */
  function Touched(before: Table, out: (Table, Outcome)): TableChange {
    match out.1
    case AckWrite(idx, _) => At(out.0, idx)
    case CreditGranted(idx) => At(out.0, idx)
    case SlotClosed(idx) => At(out.0, idx)
    case DataBuffered(idx) => At(out.0, idx)
    case _ => SameTable
  }

  function At(table: Table, idx: nat): TableChange {
    if idx < |table.slots| && table.slots[idx].Some? then SetAt(idx, table.slots[idx].value) else SameTable
  }

  function StepAct(s: State, t: Task, outcome: Outcome, answer: Option<nat>, from: nat, pick: Pick): Effect {
    match outcome
    case AckWrite(idx, ack) => Go(t, R(ROwe(Debt(Okay(ack), ByAck)))).(wake := Some(idx))
    case CreditGranted(idx) => Go(t, R(RBack)).(wake := Some(idx))
    case SlotClosed(idx) => Go(t, R(RBack)).(wake := Some(idx))
    case DataBuffered(idx) => Go(t, R(RBack)).(wake := Some(idx))
    case CancelPendingOpen(remote) =>
      var closed := CloseRemote(s.table, remote);
      if closed.1.None? then Go(t, R(RBack))
      else Go(t, R(RWakeBack(closed.1.value))).(table := At(closed.0, closed.1.value))
    case StrayReady(ids) => Go(t, R(ROwe(Debt(CloseIt(ids), CauseOf(answer, ByFault(from))))))
    case ChannelFault(idx, ids, opening, fault) =>
      if opening || pick == Run then Go(t, R(RFail(idx, ids, fault, CauseOf(answer, ByFault(from))))) else Now(READER)
    case _ => Go(t, R(RBack))
  }

  /** `fail_channel` marks the slot, if it is still there; nobody needs to close the channel again. */
  function StepFail(s: State, t: Task, idx: nat, ids: ChannelIds, fault: Fault, cause: Cause): Effect {
    var slot := Get(s.table, ChannelId(idx, ids.local));
    if slot.None? then Go(t, R(ROwe(Debt(CloseIt(ids), cause))))
    else
      var r := if cause.ByFault? then WaitingAnswer(s, idx) else None;
      Go(t, R(RFailWake(idx, ids, if r.Some? then ByAnswer(r.value, Some(cause.from)) else cause)))
        .(table := SetAt(idx, Fail(slot.value, fault)), note := FateNote(r, Closing))
  }

  function StepOwe(t: Task, d: Debt): Effect {
    Go(t, R(RNotify))
      .(debt := Push(d), note := if d.cause.ByAnswer? then SetFate(d.cause.answer, ClosedOff) else NoNote)
  }

  /** The `Reader` waits for a packet, racing the debts and the end of the stream. */
  function WaitStep(s: State, t: Task, pick: Pick): Option<Effect> {
    match pick
    case Run => if Woken(s, t, ReceiveSignal(s)) then Some(Go(t, R(RIntr))) else None
    case Got(pkt) => Some(Go(t, R(RGot(pkt))))
    case StreamOver => Some(Go(t, R(RStop1)))
    case Cancel => Some(Now(READER))
    case _ => None
  }

  function ReaderStep(s: State, t: Task, r: RPc, pick: Pick): Option<Effect>
    requires SoundTable(s.table) && |s.sig| == |s.table.slots| + 1
  {
    if r.RRead? then WaitStep(s, t, pick)
    else if r.RIdle? && pick == Cancel then Some(Go(t, R(RStop1)))
    else if r.RBack? && pick == Cancel then Some(Now(READER))
    else if r.RAct? && pick == FailCall then Some(StepAct(s, t, r.outcome, r.answer, r.from, pick))
    else if pick != Run then None
    else
      match r
      case RIdle => Some(Go(t, R(RTop)))
      case RTop => Some(if Live(s) then Go(t.(receiving := true), R(RPay)) else Now(READER))
      case RPay => Some(Go(t, if Live(s) && s.owed != [] then L(Wait) else if t.receiving then R(RIntr) else R(RBack)))
      case RIntr =>
        Some(if s.desync || s.owed != [] then Go(t, R(RTop)) else StepListen(s, t, ReceiveSignal(s), R(RIntr2)))
      case RIntr2 => Some(Go(t, if s.desync || s.owed != [] then R(RTop) else R(RRead)))
      case RGot(pkt) => Some(StepGot(s, t, pkt))
      case RAct(outcome, answer, from) => Some(StepAct(s, t, outcome, answer, from, pick))
      case RWakeBack(idx) => Some(Go(t, R(RBack)).(wake := Some(idx)))
      case RFail(idx, ids, fault, cause) => Some(StepFail(s, t, idx, ids, fault, cause))
      case RFailWake(idx, ids, cause) => Some(Go(t, R(ROwe(Debt(CloseIt(ids), cause)))).(wake := Some(idx)))
      case ROwe(d) => Some(StepOwe(t, d))
      case RNotify => Some(Go(t.(receiving := false), R(RPay)).(wake := Some(ReceiveSignal(s))))
      case RBack => Some(Go(t, R(RTop)))
      case RStop1 => Some(Go(t, if s.stopped then R(RStop3) else R(RStop2(!s.desync))))
      case RStop2(inStep) => Some(Go(t, R(RStop3)).(flag := Ended(inStep)))
      case RStop3 => Some(Go(t, R(RWakeAll(0))).(flag := Stopped))
      case RWakeAll(next) =>
        Some(if next < |s.sig| then Go(t, R(RWakeAll(next + 1))).(wake := Some(next)) else Now(READER))
      case _ => None
  }

  // ---- calls begin ----

  /** A caller works only on channels it was handed. */
  predicate Usable(s: State, ch: ChannelId) {
    ch.local in s.handed && ch.slot < |s.table.slots|
  }

  function StartStep(s: State, pick: Pick): Option<Effect> {
    match pick
    case StartWrite(ch, len) =>
      if Usable(s, ch) && !s.desync && len > 0
      then Some(Now(IDLE.(pc := W(WNext), kind := WriterCall, ch := ch, left := len))) else None
    case StartOpen => if Live(s) then Some(Now(IDLE.(pc := O(OAlloc), kind := OpenCall))) else None
    case StartClose(ch) =>
      if Usable(s, ch) && !s.desync then Some(Now(IDLE.(pc := C(CFree), kind := CloseCall, ch := ch))) else None
    case StartRead(ch, want) =>
      if Usable(s, ch) then Some(Now(IDLE.(pc := D(DTake), kind := ReadCall, ch := ch, want := want))) else None
    case StartAccept(remote, credit) =>
      if s.table.nextLocalId < U32_MAX then Some(StepAccept(s, remote, credit)) else None
    case StartDirect => Some(Now(IDLE.(pc := L(Wait), kind := DirectCall)))
    case _ => None
  }

  /** What task `i` does next; `None` when it has no such step. */
  function Step(s: State, i: nat, pick: Pick): Option<Effect>
    requires i < |s.tasks| && Shaped(s) && PcShape(s.tasks[i])
  {
    var t := s.tasks[i];
    match t.pc
    case Rest => StartStep(s, pick)
    case WakeRest(idx) => if pick == Run then Some(End().(wake := Some(idx))) else None
    case AFree => if pick == Run then Some(End().(table := Drop(t.ch))) else None
    case W(w) => WriterStep(s, i, t, w, pick)
    case L(l) => LockStep(s, t, l, pick)
    case O(o) => OpenerStep(s, t, o, pick)
    case C(c) => if pick == Run then Some(CloserStep(s, t, c)) else None
    case D(d) => TakerStep(s, t, d, pick)
    case R(r) => ReaderStep(s, t, r, pick)
  }
}
