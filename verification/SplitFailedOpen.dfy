/**
 A READY whose channel is closed for a fault and still handed to its caller
 (`fail_channel` and `await_open_ack` of libadb/src/split): the run that shows it.
 */
module SplitFailedOpen {
  import opened Prelude
  import opened SendQueues
  import opened Slots
  import opened ChannelTables
  import opened SplitMachine
  import opened SplitInvariants
  import opened SplitBasic
  import opened SplitOpen
  import opened SplitRuns
  import ReceiveFlow

  // ---- runs step by step ----

  /** Task `i` can take the step it picks, and it leads to `s1`. */
  ghost predicate Leads(s: State, i: nat, pick: Pick, s1: State) {
    && i < |s.tasks| && Shaped(s) && PcShape(s.tasks[i])
    && Step(s, i, pick).Some? && Apply(s, i, Step(s, i, pick).value) == s1
  }

  lemma Goes(start: State, run: seq<Move>, s: State, i: nat, pick: Pick, s1: State) returns (longer: seq<Move>)
    requires After(start, run) == Some(s) && Leads(s, i, pick, s1)
    ensures After(start, longer) == Some(s1)
  {
    hide Step, Apply;
    longer := run + [Move(i, pick)];
    assert longer[..|run|] == run;
  }

  // ---- one slot, the `Reader` and one caller ----

  /** That of the smallest configuration, with delayed ack. */
  const POLICY := RxPolicy(Delayed, 1024, 1)

  const SETUP := Setup(NewTable(1, POLICY), false, 1024, 1)

  /** All the states of this run differ in until something is owed. */
  function Two(reader: Task, caller: Task, entry: Option<Slot>, nextId: nat, sig: nat): State {
    State(Table([entry], nextId, POLICY), 1024, [sig, 0], [], None, false, false, false, [reader, caller],
          {}, [[]], [BLANK], 0, [], [], false, [], [])
  }

  lemma Begins()
    ensures Initial(SETUP) == Two(READER, IDLE, None, 1, 0) && Splittable(SETUP.table)
  {
    assert NewTable(1, POLICY).slots == [None];
    assert Initial(SETUP).handed == {};
  }

  lemma NoMoves()
    ensures After(Initial(SETUP), []) == Some(Two(READER, IDLE, None, 1, 0))
  {
    hide Initial, Two;
    Begins();
  }

  const CALLER := IDLE.(kind := OpenCall, ch := ChannelId(0, 1), armed := true)

  const OPENING := OpeningSlot(1, POLICY)

  // ---- the OPEN goes out ----

  function Queued(): State { Two(READER, CALLER.(pc := L(Wait)), Some(OPENING), 2, 0) }

  function Holds(pc: LPc): State {
    Two(READER, CALLER.(pc := L(pc), half := true), Some(OPENING), 2, 0).(holder := Some(1))
  }

  lemma Allocates()
    ensures Leads(Two(READER, IDLE, None, 1, 0), 1, StartOpen,
                  Two(READER, IDLE.(pc := O(OAlloc), kind := OpenCall), None, 1, 0))
    ensures Leads(Two(READER, IDLE.(pc := O(OAlloc), kind := OpenCall), None, 1, 0), 1, Run, Queued())
  {
  }

  lemma TakesHalf()
    ensures Leads(Queued(), 1, Run, Holds(Look))
  {
  }

  lemma FindsNothingOwed()
    ensures Leads(Holds(Look), 1, Run, Holds(Held(0)))
  {
  }

  lemma StartsOpen()
    ensures Leads(Holds(Held(0)), 1, Run, Holds(Send(0)))
  {
  }

  lemma ReachesDevice()
    ensures Leads(Holds(Send(0)), 1, Run, Holds(Flush(0)))
  {
  }

  const SENT: seq<Frame> := [OpenFrame(1, 0)]

  function Sent(caller: Task): State { Two(READER, caller, Some(OPENING), 2, 0).(wire := SENT) }

  lemma FinishesOpen()
    ensures Leads(Holds(Flush(0)), 1, Run, Holds(Unlock(Done, 0)).(wire := SENT))
    ensures Leads(Holds(Unlock(Done, 0)).(wire := SENT), 1, Run, Sent(CALLER.(pc := O(OStep))))
  {
  }

  /** The caller is about to look at its slot. */
  const LOOKS := CALLER.(pc := O(OLook), ear := Some(0))

  lemma Listens()
    ensures Leads(Sent(CALLER.(pc := O(OStep))), 1, Run, Sent(CALLER.(pc := O(OListen))))
    ensures Leads(Sent(CALLER.(pc := O(OListen))), 1, Run, Sent(LOOKS))
  {
  }

  lemma CallerStarts() returns (run: seq<Move>)
    ensures After(Initial(SETUP), run) == Some(Holds(Held(0)))
  {
    var s0, s1 := Two(READER, IDLE, None, 1, 0), Two(READER, IDLE.(pc := O(OAlloc), kind := OpenCall), None, 1, 0);
    var start := Initial(SETUP);
    hide Leads, After, Two, Queued, Holds, Initial;
    NoMoves();
    Allocates();
    TakesHalf();
    FindsNothingOwed();
    run := Goes(start, [], s0, 1, StartOpen, s1);
    run := Goes(start, run, s1, 1, Run, Queued());
    run := Goes(start, run, Queued(), 1, Run, Holds(Look));
    run := Goes(start, run, Holds(Look), 1, Run, Holds(Held(0)));
  }

  lemma CallerSends() returns (run: seq<Move>)
    ensures After(Initial(SETUP), run) == Some(Holds(Unlock(Done, 0)).(wire := SENT))
  {
    var start := Initial(SETUP);
    hide Leads, After, Holds, Initial;
    run := CallerStarts();
    StartsOpen();
    ReachesDevice();
    FinishesOpen();
    run := Goes(start, run, Holds(Held(0)), 1, Run, Holds(Send(0)));
    run := Goes(start, run, Holds(Send(0)), 1, Run, Holds(Flush(0)));
    run := Goes(start, run, Holds(Flush(0)), 1, Run, Holds(Unlock(Done, 0)).(wire := SENT));
  }

  lemma CallerOpens() returns (run: seq<Move>)
    ensures After(Initial(SETUP), run) == Some(Sent(LOOKS))
  {
    var start := Initial(SETUP);
    hide Leads, After, Holds, Sent, Initial;
    run := CallerSends();
    FinishesOpen();
    Listens();
    run := Goes(start, run, Holds(Unlock(Done, 0)).(wire := SENT), 1, Run, Sent(CALLER.(pc := O(OStep))));
    run := Goes(start, run, Sent(CALLER.(pc := O(OStep))), 1, Run, Sent(CALLER.(pc := O(OListen))));
    run := Goes(start, run, Sent(CALLER.(pc := O(OListen))), 1, Run, Sent(LOOKS));
  }

  // ---- the READY comes, then one whose payload is too short ----

  const WAITS := READER.(receiving := true, ear := Some(0))

  /** The channel at this point of the run: opening, opened by the READY, or failed. */
  datatype Progress = NoAnswer | Answered(told: bool) | FailedNow(told: bool)

  const OPENED := OPENING.(remote := Some(5), state := Open, sendBudget := 1)

  const GRANTED := BLANK.(granted := 1, answer := Some(0))

  const READY_IDS := ChannelIds(1, 5)

  function At(p: Progress, reader: Task): State {
    match p
    case NoAnswer => Two(reader, LOOKS, Some(OPENING), 2, 0).(wire := SENT)
    case Answered(told) =>
      Two(reader, LOOKS, Some(OPENED), 2, if told then 1 else 0)
        .(wire := SENT, books := [GRANTED], answers := [Answer(READY_IDS, Waiting, None)])
    case FailedNow(told) =>
      Two(reader, LOOKS, Some(Fail(OPENED, ShortReadyPayload)), 2, if told then 2 else 1)
        .(wire := SENT, books := [GRANTED], answers := [Answer(READY_IDS, Closing, None)])
  }

  /** What a `Reader` finds that is to wait for a packet: a live connection, and nothing owed. */
  ghost predicate Calm(s: State) {
    && Shaped(s) && |s.tasks| == 2 && s.owed == [] && SplitMachine.Live(s) && !s.desync
    && |s.sig| == 2 && s.sig[1] == 0 && ReceiveSignal(s) == 1
  }

  lemma AtIsCalm(p: Progress, reader: Task)
    requires p.NoAnswer? || p.Answered?
    ensures Calm(At(p, reader)) && At(p, reader).tasks == [reader, LOOKS]
  {
  }

  /** A step that moves the `Reader` and nothing else. */
  lemma OnlyReader(p: Progress, reader: Task, pick: Pick, next: Task)
    requires Calm(At(p, reader)) && PcShape(reader) && At(p, reader).tasks == [reader, LOOKS]
    requires Step(At(p, reader), 0, pick) == Some(Now(next))
    ensures Leads(At(p, reader), 0, pick, At(p, next))
  {
    hide Step;
  }

  lemma TopSteps(s: State, t: Task)
    requires Calm(s) && s.tasks[0] == t && PcShape(t) && t.pc.R?
    ensures t.pc.r.RIdle? || t.pc.r.RBack? ==> Step(s, 0, Run) == Some(Go(t, R(RTop)))
    ensures t.pc.r.RTop? ==> Step(s, 0, Run) == Some(Go(t.(receiving := true), R(RPay)))
    ensures t.pc.r.RPay? && t.receiving ==> Step(s, 0, Run) == Some(Go(t, R(RIntr)))
  {
    hide StepGot, StepAct, StepFail, StepOwe, WaitStep, StepListen, SoundTable;
  }

  lemma ListenSteps(s: State, t: Task, pkt: Packet)
    requires Calm(s) && s.tasks[0] == t && PcShape(t) && t.pc.R?
    ensures t.pc.r.RIntr? ==> Step(s, 0, Run) == Some(Now(t.(pc := R(RIntr2), ear := Some(0))))
    ensures t.pc.r.RIntr2? ==> Step(s, 0, Run) == Some(Go(t, R(RRead)))
    ensures t.pc.r.RRead? ==> Step(s, 0, Got(pkt)) == Some(Go(t, R(RGot(pkt))))
  {
    hide StepGot, StepAct, StepFail, StepOwe, SoundTable;
  }

  lemma GoesRound(p: Progress, reader: Task)
    requires p.NoAnswer? || p.Answered?
    requires reader == READER || reader == WAITS.(pc := R(RBack))
    ensures Leads(At(p, reader), 0, Run, At(p, reader.(pc := R(RTop))))
    ensures Leads(At(p, reader.(pc := R(RTop))), 0, Run, At(p, reader.(pc := R(RPay), receiving := true)))
    ensures Leads(At(p, reader.(pc := R(RPay), receiving := true)), 0, Run,
                  At(p, reader.(pc := R(RIntr), receiving := true)))
  {
    hide At, Leads, Step, Calm;
    var top, pay := reader.(pc := R(RTop)), reader.(pc := R(RPay), receiving := true);
    AtIsCalm(p, reader);
    AtIsCalm(p, top);
    AtIsCalm(p, pay);
    TopSteps(At(p, reader), reader);
    TopSteps(At(p, top), top);
    TopSteps(At(p, pay), pay);
    OnlyReader(p, reader, Run, top);
    OnlyReader(p, top, Run, pay);
    OnlyReader(p, pay, Run, pay.(pc := R(RIntr)));
  }

  lemma WaitsForPacket(p: Progress, reader: Task, pkt: Packet)
    requires p.NoAnswer? || p.Answered?
    requires reader == READER || reader == WAITS.(pc := R(RBack))
    ensures Leads(At(p, reader.(pc := R(RIntr), receiving := true)), 0, Run, At(p, WAITS.(pc := R(RIntr2))))
    ensures Leads(At(p, WAITS.(pc := R(RIntr2))), 0, Run, At(p, WAITS.(pc := R(RRead))))
    ensures Leads(At(p, WAITS.(pc := R(RRead))), 0, Got(pkt), At(p, WAITS.(pc := R(RGot(pkt)))))
  {
    var intr := reader.(pc := R(RIntr), receiving := true);
    hide At, Leads, Step, Calm;
    AtIsCalm(p, intr);
    AtIsCalm(p, WAITS.(pc := R(RIntr2)));
    AtIsCalm(p, WAITS.(pc := R(RRead)));
    ListenSteps(At(p, intr), intr, pkt);
    ListenSteps(At(p, WAITS.(pc := R(RIntr2))), WAITS.(pc := R(RIntr2)), pkt);
    ListenSteps(At(p, WAITS.(pc := R(RRead))), WAITS.(pc := R(RRead)), pkt);
    OnlyReader(p, intr, Run, WAITS.(pc := R(RIntr2)));
    OnlyReader(p, WAITS.(pc := R(RIntr2)), Run, WAITS.(pc := R(RRead)));
    OnlyReader(p, WAITS.(pc := R(RRead)), Got(pkt), WAITS.(pc := R(RGot(pkt))));
  }

  /** The `Reader` goes round and receives `pkt`. */
  lemma ReaderGets(start: State, before: seq<Move>, p: Progress, reader: Task, pkt: Packet) returns (run: seq<Move>)
    requires p.NoAnswer? || p.Answered?
    requires reader == READER || reader == WAITS.(pc := R(RBack))
    requires After(start, before) == Some(At(p, reader))
    ensures After(start, run) == Some(At(p, WAITS.(pc := R(RGot(pkt)))))
  {
    hide Leads, After, At;
    GoesRound(p, reader);
    WaitsForPacket(p, reader, pkt);
    run := Goes(start, before, At(p, reader), 0, Run, At(p, reader.(pc := R(RTop))));
    run := Goes(start, run, At(p, reader.(pc := R(RTop))), 0, Run, At(p, reader.(pc := R(RPay), receiving := true)));
    run := Goes(start, run, At(p, reader.(pc := R(RPay), receiving := true)), 0, Run,
                At(p, reader.(pc := R(RIntr), receiving := true)));
    run := Goes(start, run, At(p, reader.(pc := R(RIntr), receiving := true)), 0, Run, At(p, WAITS.(pc := R(RIntr2))));
    run := Goes(start, run, At(p, WAITS.(pc := R(RIntr2))), 0, Run, At(p, WAITS.(pc := R(RRead))));
    run := Goes(start, run, At(p, WAITS.(pc := R(RRead))), 0, Got(pkt), At(p, WAITS.(pc := R(RGot(pkt)))));
  }

  const READY := Packet(Ready, 5, 1, [1, 0, 0, 0])

  const SHORT := Packet(Ready, 5, 1, [])

  lemma ReadyOpensSlot()
    ensures Dispatch(Table([Some(OPENING)], 2, POLICY), READY) == (Table([Some(OPENED)], 2, POLICY), CreditGranted(0))
  {
    var t := Table([Some(OPENING)], 2, POLICY);
    assert Ours(t.slots[0], 1);
    assert FindLocal(t.slots, 1) == Some(0);
    assert OnSlot(0, OPENING, READY) == (OPENED, CreditGranted(0));
    assert t.slots[0 := Some(OPENED)] == [Some(OPENED)];
  }

  lemma TakesReady()
    ensures Leads(At(NoAnswer, WAITS.(pc := R(RGot(READY)))), 0, Run,
                  At(Answered(false), WAITS.(pc := R(RAct(CreditGranted(0), None, 5)))))
  {
    hide Dispatch;
    ReadyOpensSlot();
  }

  lemma TellsCaller()
    ensures Leads(At(Answered(false), WAITS.(pc := R(RAct(CreditGranted(0), None, 5)))), 0, Run,
                  At(Answered(true), WAITS.(pc := R(RBack))))
  {
  }

  const TOO_SHORT := ChannelFault(0, READY_IDS, false, ShortReadyPayload)

  lemma ShortReadyFaults()
    ensures Dispatch(Table([Some(OPENED)], 2, POLICY), SHORT) == (Table([Some(OPENED)], 2, POLICY), TOO_SHORT)
  {
    var t := Table([Some(OPENED)], 2, POLICY);
    assert Ours(t.slots[0], 1);
    assert FindLocal(t.slots, 1) == Some(0);
    assert OnSlot(0, OPENED, SHORT) == (OPENED, TOO_SHORT);
    assert t.slots[0 := Some(OPENED)] == [Some(OPENED)];
  }

  lemma TakesShort()
    ensures Leads(At(Answered(true), WAITS.(pc := R(RGot(SHORT)))), 0, Run,
                  At(Answered(true), WAITS.(pc := R(RAct(TOO_SHORT, None, 5)))))
  {
    hide Dispatch;
    ShortReadyFaults();
  }

  const DEBT := Debt(CloseIt(READY_IDS), ByAnswer(0, Some(5)))

  const FAILS := WAITS.(pc := R(RFail(0, READY_IDS, ShortReadyPayload, ByFault(5))))

  const WAKES := WAITS.(pc := R(RFailWake(0, READY_IDS, DEBT.cause)))

  const OWES := WAITS.(pc := R(ROwe(DEBT)))

  lemma ActsOnFault()
    ensures Leads(At(Answered(true), WAITS.(pc := R(RAct(TOO_SHORT, None, 5)))), 0, Run, At(Answered(true), FAILS))
  {
    hide StepGot, StepFail, StepOwe;
  }

  lemma FailsChannel()
    ensures Leads(At(Answered(true), FAILS), 0, Run, At(FailedNow(false), WAKES))
  {
    hide StepGot, StepAct, StepOwe;
  }

  /** The CLSE is recorded, and only then does the caller look. */
  function Owed(reader: Task, caller: Task): State {
    At(FailedNow(true), reader).(tasks := [reader, caller], owed := [DEBT], recorded := [DEBT],
                                 answers := [Answer(READY_IDS, ClosedOff, if caller == IDLE then Some(true) else None)],
                                 handed := if caller == IDLE then {1} else {})
  }

  lemma WakesCaller()
    ensures Leads(At(FailedNow(false), WAKES), 0, Run, At(FailedNow(true), OWES))
  {
    hide StepGot, StepAct, StepFail;
  }

  lemma OwesClose()
    ensures Leads(At(FailedNow(true), OWES), 0, Run, Owed(WAITS.(pc := R(RNotify)), LOOKS))
  {
    hide StepGot, StepAct, StepFail;
  }

  lemma HandsOver()
    ensures Leads(Owed(WAITS.(pc := R(RNotify)), LOOKS), 1, Run, Owed(WAITS.(pc := R(RNotify)), IDLE))
  {
  }

  lemma ReaderFails() returns (run: seq<Move>)
    ensures After(Initial(SETUP), run) == Some(At(Answered(true), WAITS.(pc := R(RAct(TOO_SHORT, None, 5)))))
  {
    var start := Initial(SETUP);
    run := CallerOpens();
    assert Sent(LOOKS) == At(NoAnswer, READER);
    hide Leads, After, At, Sent, Initial;
    TakesReady();
    TellsCaller();
    TakesShort();
    run := ReaderGets(start, run, NoAnswer, READER, READY);
    run := Goes(start, run, At(NoAnswer, WAITS.(pc := R(RGot(READY)))), 0, Run,
                At(Answered(false), WAITS.(pc := R(RAct(CreditGranted(0), None, 5)))));
    run := Goes(start, run, At(Answered(false), WAITS.(pc := R(RAct(CreditGranted(0), None, 5)))), 0, Run,
                At(Answered(true), WAITS.(pc := R(RBack))));
    run := ReaderGets(start, run, Answered(true), WAITS.(pc := R(RBack)), SHORT);
    run := Goes(start, run, At(Answered(true), WAITS.(pc := R(RGot(SHORT)))), 0, Run,
                At(Answered(true), WAITS.(pc := R(RAct(TOO_SHORT, None, 5)))));
  }

  /** The caller has its channel, and a CLSE for it is owed. */
  lemma RunHandsOverFailed() returns (run: seq<Move>)
    ensures After(Initial(SETUP), run) == Some(Owed(WAITS.(pc := R(RNotify)), IDLE))
  {
    var start := Initial(SETUP);
    run := ReaderFails();
    hide Leads, After, At, Owed, Initial;
    ActsOnFault();
    FailsChannel();
    WakesCaller();
    OwesClose();
    HandsOver();
    run := Goes(start, run, At(Answered(true), WAITS.(pc := R(RAct(TOO_SHORT, None, 5)))), 0, Run,
                At(Answered(true), FAILS));
    run := Goes(start, run, At(Answered(true), FAILS), 0, Run, At(FailedNow(false), WAKES));
    run := Goes(start, run, At(FailedNow(false), WAKES), 0, Run, At(FailedNow(true), OWES));
    run := Goes(start, run, At(FailedNow(true), OWES), 0, Run, Owed(WAITS.(pc := R(RNotify)), LOOKS));
    run := Goes(start, run, Owed(WAITS.(pc := R(RNotify)), LOOKS), 1, Run, Owed(WAITS.(pc := R(RNotify)), IDLE));
  }

  /**
   A READY can be both handed over and closed: here no call is under way any more,
   the caller has the channel, and its CLSE is recorded.
   */
  lemma HandedAndClosed() returns (run: seq<Move>, s: State)
    ensures ReceiveFlow.ValidConfig(ReceiveFlow.SMALLEST)
    ensures SETUP.table.policy == ReceiveFlow.PolicyOf(ReceiveFlow.SMALLEST, Delayed)
    ensures Reached(SETUP, run, s) && Quiescent(s)
    ensures |s.answers| == 1 && s.answers[0].given == Some(true) && s.answers[0].ids.local in s.handed
    ensures Owing(s.recorded, 0) == 1
  {
    run := RunHandsOverFailed();
    s := Owed(WAITS.(pc := R(RNotify)), IDLE);
    Begins();
    hide After, Initial;
    assert Owing([DEBT], 0) == 1 by { assert [DEBT][..0] == []; }
  }
}
