/**
 A write whose send fails after the device has the packet (`CreditGuard` of
 libadb/src/split/shared.rs): the run that shows its channel with two go-aheads.
 */
module SplitRegret {
  import opened Prelude
  import opened SendQueues
  import opened Slots
  import opened ChannelTables
  import opened SplitMachine
  import opened SplitInvariants
  import opened SplitBasic
  import opened SplitRuns
  import opened SplitFailedOpen
  import ReceiveFlow

  /** That of the smallest configuration, without delayed ack. */
  const PLAIN_POLICY := RxPolicy(Classic, 1024, 1)

  /** One open channel, handed out before the split. */
  const CHANNEL := AcceptedSlot(ChannelIds(1, 5), 0, PLAIN_POLICY)

  const OPEN_SETUP := Setup(Table([Some(CHANNEL)], 2, PLAIN_POLICY), false, 1024, 1)

  const WRITER := IDLE.(kind := WriterCall, ch := ChannelId(0, 1), left := 1)

  /** All the states of this run differ in. */
  function At(caller: Task, slot: Slot, book: Book, line: seq<Ticket>, nextTicket: nat): State {
    State(Table([Some(slot)], 2, PLAIN_POLICY), 1024, [0, 0], [], if caller.half then Some(1) else None,
          false, false, false, [READER, caller], {1}, [line], [book], nextTicket, [], [], false, [], [])
  }

  lemma Begins()
    ensures Splittable(OPEN_SETUP.table) && After(Initial(OPEN_SETUP), []) == Some(At(IDLE, CHANNEL, BLANK, [], 0))
  {
    var s := Initial(OPEN_SETUP);
    assert OPEN_SETUP.table.slots[0] == Some(CHANNEL);
    assert s.handed == {1};
    assert s.books == [BLANK] && s.lines == [[]] && s.sig == [0, 0] && s.tasks == [READER, IDLE];
  }

  // ---- the writer takes its place and the token ----

  const QUEUED := CHANNEL.(queue := Queue(0, 1, {}, 0))

  function Seated(pc: WPc, ear: Option<nat>): State {
    At(WRITER.(pc := W(pc), seat := Some(Seat(0, 0)), ear := ear), QUEUED, BLANK, [Ticket(0, 1)], 1)
  }

  lemma TakesPlace()
    ensures Leads(At(IDLE, CHANNEL, BLANK, [], 0), 1, StartWrite(ChannelId(0, 1), 1),
                  At(WRITER.(pc := W(WNext)), CHANNEL, BLANK, [], 0))
    ensures Leads(At(WRITER.(pc := W(WNext)), CHANNEL, BLANK, [], 0), 1, Run, Seated(WListen, None))
  {
    assert [Ticket(0, 1)] == [] + [Ticket(0, 1)];
  }

  /** The token is reserved, and the writer works for its WRTE. */
  const SERVED := CHANNEL.(wrteAcked := false, queue := Queue(1, 1, {}, 1))

  const HOLDS := WRITER.(credit := Some(Credit(1, false)))

  function Reserved(pc: Pc, half: bool): State { At(HOLDS.(pc := pc, half := half), SERVED, BLANK, [], 1) }

  lemma Listens()
    ensures Leads(Seated(WListen, None), 1, Run, Seated(WTry, Some(0)))
  {
    hide StepNext, StepTry, StepLeave, StepIds, StepRefund, StepCommit;
  }

  /** `try_reserve` serves the only writer in line. */
  const TOKEN_TAKEN :=
    Now(HOLDS.(pc := W(WIds))).(table := SetAt(0, SERVED), line := ServeFirst)

  lemma ServesWriter(t: Task)
    requires t == WRITER.(pc := W(WTry), seat := Some(Seat(0, 0)), ear := Some(0))
    ensures StepTry(Seated(WTry, Some(0)), t) == TOKEN_TAKEN
  {
    assert Serve(QUEUED.queue) == Queue(1, 1, {}, 1);
  }

  lemma TokenIsReserved()
    ensures Apply(Seated(WTry, Some(0)), 1, TOKEN_TAKEN) == Reserved(W(WIds), false)
  {
    assert [Ticket(0, 1)][1..] == [];
  }

  lemma TakesToken()
    ensures Leads(Seated(WTry, Some(0)), 1, Run, Reserved(W(WIds), false))
  {
    ServesWriter(Seated(WTry, Some(0)).tasks[1]);
    TokenIsReserved();
    hide StepNext, StepTry, StepListen, StepLeave, StepIds, StepRefund, StepCommit, Apply, Reserved, TOKEN_TAKEN;
  }

  // ---- the WRTE reaches the device, and the send fails ----

  const SENDS := HOLDS.(ids := ChannelIds(1, 5))

  function Sending(pc: LPc): State { At(SENDS.(pc := L(pc), half := pc != Wait), SERVED, BLANK, [], 1) }

  lemma Waits()
    ensures Leads(Reserved(W(WIds), false), 1, Run, Sending(Wait))
  {
    hide StepNext, StepListen, StepTry, StepLeave, StepRefund, StepCommit;
  }

  lemma TakesHalf()
    ensures Leads(Sending(Wait), 1, Run, Sending(Look))
  {
  }

  lemma Looks()
    ensures Leads(Sending(Look), 1, Run, Sending(Held(0)))
  {
  }

  lemma Starts()
    ensures Leads(Sending(Held(0)), 1, Run, Sending(Send(0)))
  {
  }

  const CHARGED := BLANK.(sent := 1, outstanding := 1)

  function Reached(pc: Pc, half: bool): State {
    At(SENDS.(pc := pc, half := half, credit := Some(Credit(1, true))), SERVED, CHARGED, [], 1)
  }

  lemma Reaches()
    ensures Leads(Sending(Send(0)), 1, Run, Reached(L(Flush(0)), true))
  {
    hide StepHeld, Resume, PayStep, SendFails;
  }

  lemma FailsToReturn()
    ensures Leads(Reached(L(Flush(0)), true), 1, Gone, Reached(L(Unlock(Errored, 0)), true))
  {
  }

  lemma LetsGo()
    ensures Leads(Reached(L(Unlock(Errored, 0)), true), 1, Run, Reached(W(WRefund), false))
  {
  }

  const REFUNDED := CHANNEL.(queue := Queue(1, 1, {}, 0))

  function Over(): State {
    At(IDLE.(pc := WakeRest(0)), REFUNDED, CHARGED.(takenBack := 1, regretted := true), [], 1)
  }

  lemma TakesBack()
    ensures Leads(Reached(W(WRefund), false), 1, Run, Over())
  {
    hide StepNext, StepListen, StepTry, StepLeave, StepIds, StepCommit;
  }

  lemma RunReserves() returns (run: seq<Move>)
    ensures After(Initial(OPEN_SETUP), run) == Some(Sending(Wait))
  {
    var start := Initial(OPEN_SETUP);
    hide Leads, After, Initial, At, Seated, Reserved, Sending;
    Begins();
    TakesPlace();
    Listens();
    TakesToken();
    Waits();
    run := Goes(start, [], At(IDLE, CHANNEL, BLANK, [], 0), 1, StartWrite(ChannelId(0, 1), 1),
                At(WRITER.(pc := W(WNext)), CHANNEL, BLANK, [], 0));
    run := Goes(start, run, At(WRITER.(pc := W(WNext)), CHANNEL, BLANK, [], 0), 1, Run, Seated(WListen, None));
    run := Goes(start, run, Seated(WListen, None), 1, Run, Seated(WTry, Some(0)));
    run := Goes(start, run, Seated(WTry, Some(0)), 1, Run, Reserved(W(WIds), false));
    run := Goes(start, run, Reserved(W(WIds), false), 1, Run, Sending(Wait));
  }

  lemma RunSends() returns (run: seq<Move>)
    ensures After(Initial(OPEN_SETUP), run) == Some(Reached(L(Flush(0)), true))
  {
    var start := Initial(OPEN_SETUP);
    hide Leads, After, Initial, Sending, Reached;
    run := RunReserves();
    TakesHalf();
    Looks();
    Starts();
    Reaches();
    run := Goes(start, run, Sending(Wait), 1, Run, Sending(Look));
    run := Goes(start, run, Sending(Look), 1, Run, Sending(Held(0)));
    run := Goes(start, run, Sending(Held(0)), 1, Run, Sending(Send(0)));
    run := Goes(start, run, Sending(Send(0)), 1, Run, Reached(L(Flush(0)), true));
  }

  /** With a device that OKAYed nothing it had not got, the channel has two go-aheads. */
  lemma TwoGoAheads() returns (run: seq<Move>, s: State)
    ensures ReceiveFlow.ValidConfig(ReceiveFlow.SMALLEST)
    ensures OPEN_SETUP.table.policy == ReceiveFlow.PolicyOf(ReceiveFlow.SMALLEST, Classic)
    ensures SplitRuns.Reached(OPEN_SETUP, run, s)
    ensures |s.books| == |s.table.slots| == 1 && s.table.slots[0].Some? && !s.books[0].rude
    ensures GoAheads(s, 0, s.table.slots[0].value) == 2
  {
    var start := Initial(OPEN_SETUP);
    s := Over();
    Begins();
    NoTokens();
    hide Leads, After, Initial, Reached, Sum;
    run := RunSends();
    FailsToReturn();
    LetsGo();
    TakesBack();
    run := Goes(start, run, Reached(L(Flush(0)), true), 1, Gone, Reached(L(Unlock(Errored, 0)), true));
    run := Goes(start, run, Reached(L(Unlock(Errored, 0)), true), 1, Run, Reached(W(WRefund), false));
    run := Goes(start, run, Reached(W(WRefund), false), 1, Run, s);
  }

  lemma NoTokens()
    ensures Sum(Over().tasks, Tokens(ChannelId(0, 1))) == 0
  {
    var tasks := Over().tasks;
    assert tasks[..1] == [READER] && [READER][..0] == [];
    assert Sum([READER], Tokens(ChannelId(0, 1))) == 0;
  }
}
