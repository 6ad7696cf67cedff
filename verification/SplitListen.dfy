/**
 The calls on a split connection that wait for something other than a channel:
 `IncomingListener::accept` (libadb/src/split/accept.rs) for a request of the
 device, and `once` (libadb/src/split/shared.rs), which ends a read's
 acknowledgement when the connection has ended and a close when its CLSE is called
 off. No wake-up of theirs is lost either.
 */
module SplitListen {
  import opened Prelude

  datatype Signal = Incoming | Receive

  /** What a waiting call waits for. */
  datatype Goal = Request | Ended | CalledOff

  /**
   A call, one step at a time: `accept` and `once` look and sleep; a request is
   queued, a send spoils the stream, or the connection stops, each followed by its
   notifications, which nothing can stop any more.
   */
  datatype Task =
    | Idle
    | Early(ear: Option<nat>) | Take(ear: Option<nat>) | Alive(ear: Option<nat>) | Sleeps(ear: Option<nat>)
    | Checks(goal: Goal, ear: Option<nat>) | Rests(goal: Goal, ear: Option<nat>)
    | Queues | TellsIncoming
    | Spoils | Ends(over: bool) | ReadsStep | StoresStep(inStep: bool) | Stops | TellsAll | TellsReceive

  /** Requests queued, the flags, and how often each signal was notified. */
  datatype Shared = Shared(
    queue: nat,
    streamOver: bool,
    stopped: bool,
    desync: bool,
    endedInStep: bool,
    incoming: nat,
    receive: nat)

  datatype State = State(shared: Shared, tasks: seq<Task>)

  predicate Live(s: Shared) { (!s.desync || s.endedInStep) && !s.stopped }

  predicate Over(s: Shared, goal: Goal) {
    match goal
    case Request => false
    case Ended => !Live(s)
    case CalledOff => s.streamOver || s.desync
  }

  function Count(s: Shared, signal: Signal): nat { if signal == Incoming then s.incoming else s.receive }

  function Notify(s: Shared, signal: Signal): Shared {
    if signal == Incoming then s.(incoming := s.incoming + 1) else s.(receive := s.receive + 1)
  }

  /** The signal a call listens on. */
  function Hears(t: Task): Signal { if t.Checks? || t.Rests? then Receive else Incoming }

  predicate Listens(t: Task) { t.Early? || t.Take? || t.Alive? || t.Sleeps? || t.Checks? || t.Rests? }

  predicate Asleep(t: Task, s: Shared) { Listens(t) && t.ear == Some(Count(s, Hears(t))) }

  /** What the environment decides: a call begins, is dropped, or goes on; the device withdraws a request. */
  datatype Event = Begins(i: nat, call: Task) | Drops(i: nat) | Goes(i: nat) | Withdraws

  predicate Start(t: Task) {
    t == Early(None) || (t.Checks? && t.goal != Request && t.ear.None?) || t == Queues || t == Spoils || t.Ends?
  }

  function Put(s: State, i: nat, t: Task): State
    requires i < |s.tasks|
  {
    s.(tasks := s.tasks[i := t])
  }

  /** One step of a call. `None`: it sleeps. */
  function Move(s: Shared, t: Task): Option<(Shared, Task)> {
    match t
    case Idle => None
    case Early(ear) => Some((s, if s.desync && !Live(s) then Idle else Take(ear)))
    case Take(ear) => Some(if s.queue > 0 then (s.(queue := s.queue - 1), Idle) else (s, Alive(ear)))
    case Alive(ear) => Some((s, if !Live(s) then Idle else if ear.Some? then Sleeps(ear) else Early(Some(s.incoming))))
    case Sleeps(ear) => if ear == Some(s.incoming) then None else Some((s, Early(None)))
    case Checks(goal, ear) =>
      Some((s, if Over(s, goal) then Idle else if ear.Some? then Rests(goal, ear) else Checks(goal, Some(s.receive))))
    case Rests(goal, ear) => if ear == Some(s.receive) then None else Some((s, Checks(goal, None)))
    case Queues => Some((s.(queue := s.queue + 1), TellsIncoming))
    case TellsIncoming => Some((Notify(s, Incoming), Idle))
    case Spoils => Some((s.(desync := true), TellsAll))
    case Ends(over) => Some((s.(streamOver := s.streamOver || over), ReadsStep))
    case ReadsStep => Some((s, if s.stopped then Stops else StoresStep(!s.desync)))
    case StoresStep(inStep) => Some((s.(endedInStep := inStep), Stops))
    case Stops => Some((s.(stopped := true), TellsAll))
    case TellsAll => Some((Notify(s, Incoming), TellsReceive))
    case TellsReceive => Some((Notify(s, Receive), Idle))
  }

  function Step(s: State, i: nat): Option<State>
    requires i < |s.tasks|
  {
    match Move(s.shared, s.tasks[i])
    case None => None
    case Some((shared, t)) => Some(State(shared, s.tasks[i := t]))
  }

  function Next(s: State, e: Event): Option<State> {
    match e
    case Begins(i, call) => if i < |s.tasks| && s.tasks[i] == Idle && Start(call) then Some(Put(s, i, call)) else None
    case Drops(i) => if i < |s.tasks| && (s.tasks[i].Sleeps? || s.tasks[i].Rests?) then Some(Put(s, i, Idle)) else None
    case Goes(i) => if i < |s.tasks| then Step(s, i) else None
    case Withdraws =>
      if s.shared.queue > 0 then Some(s.(shared := s.shared.(queue := s.shared.queue - 1))) else None
  }

  // ---- no wake-up is lost ----

  /** The call is about to notify `signal`. */
  predicate Wakes(t: Task, signal: Signal) {
    match t
    case TellsIncoming => signal == Incoming
    case TellsReceive => signal == Receive
    case _ => t.ReadsStep? || t.StoresStep? || t.Stops? || t.TellsAll?
  }

  ghost predicate Pending(s: State, signal: Signal) { exists j :: 0 <= j < |s.tasks| && Wakes(s.tasks[j], signal) }

  /** What a call that sleeps, or is about to, has made sure of. */
  predicate Settled(t: Task, s: Shared) {
    match t
    case Alive(_) => s.queue == 0
    case Sleeps(_) => s.queue == 0 && Live(s)
    case Rests(goal, _) => !Over(s, goal)
    case _ => true
  }

  ghost predicate Restful(s: State, t: Task) { Asleep(t, s.shared) ==> Settled(t, s.shared) || Pending(s, Hears(t)) }

  predicate EarBehind(t: Task, s: Shared) { Listens(t) && t.ear.Some? ==> t.ear.value <= Count(s, Hears(t)) }

  ghost predicate Inv(s: State) {
    forall i :: 0 <= i < |s.tasks| ==> EarBehind(s.tasks[i], s.shared) && Restful(s, s.tasks[i])
  }

  /** What one call's step does to the signals and to what others have made sure of. */
  lemma OthersHear(s: Shared, mover: Task, t: Task)
    requires Move(s, mover).Some? && EarBehind(t, s)
    ensures var (s1, moved) := Move(s, mover).value;
            && EarBehind(t, s1) && (Asleep(t, s1) ==> Asleep(t, s))
            && (Asleep(t, s1) && Settled(t, s) ==> Settled(t, s1) || Wakes(moved, Hears(t)))
            && (Asleep(t, s1) && Wakes(mover, Hears(t)) ==> Wakes(moved, Hears(t)))
  {
  }

  /** And to its own listener. */
  lemma OwnEar(s: Shared, t: Task)
    requires Move(s, t).Some? && EarBehind(t, s)
    ensures var (s1, u) := Move(s, t).value;
            && EarBehind(u, s1)
            && (Asleep(u, s1) && !Settled(u, s1) ==> s1 == s && Hears(u) == Hears(t) && Asleep(t, s) && !Settled(t, s))
  {
  }

  /** A wake that is on the way stays on the way until the signal is notified. */
  lemma StillPending(s: State, i: nat, t: Task)
    requires i < |s.tasks| && Move(s.shared, s.tasks[i]).Some? && EarBehind(t, s.shared)
    requires Pending(s, Hears(t)) && Asleep(t, Move(s.shared, s.tasks[i]).value.0)
    ensures Pending(Step(s, i).value, Hears(t))
  {
    hide Move, Wakes, Asleep, EarBehind;
    OthersHear(s.shared, s.tasks[i], t);
    var k :| 0 <= k < |s.tasks| && Wakes(s.tasks[k], Hears(t));
    assert Wakes(Step(s, i).value.tasks[k], Hears(t));
  }

  lemma StepKeeps(s: State, i: nat)
    requires Inv(s) && i < |s.tasks| && Step(s, i).Some?
    ensures Inv(Step(s, i).value)
  {
    hide Move, Wakes, Asleep, Settled, EarBehind, Pending;
    var s1 := Step(s, i).value;
    forall j | 0 <= j < |s1.tasks| ensures EarBehind(s1.tasks[j], s1.shared) && Restful(s1, s1.tasks[j]) {
      var t := s.tasks[j];
      assert EarBehind(t, s.shared) && Restful(s, t);
      if j == i {
        OwnEar(s.shared, t);
        if Asleep(s1.tasks[i], s1.shared) && !Settled(s1.tasks[i], s1.shared) { StillPending(s, i, t); }
      } else {
        OthersHear(s.shared, s.tasks[i], t);
        if Asleep(t, s1.shared) && !Settled(t, s1.shared) {
          if Settled(t, s.shared) { NowPending(s1, i, Hears(t)); } else { StillPending(s, i, t); }
        }
      }
    }
  }

  lemma NowPending(s: State, i: nat, signal: Signal)
    requires i < |s.tasks| && Wakes(s.tasks[i], signal)
    ensures Pending(s, signal)
  {
  }

  lemma NextKeeps(s: State, e: Event)
    requires Inv(s) && Next(s, e).Some?
    ensures Inv(Next(s, e).value)
  {
    match e {
      case Goes(i) => StepKeeps(s, i);
      case Begins(i, call) => PutKeeps(s, i, call);
      case Drops(i) => PutKeeps(s, i, Idle);
      case Withdraws =>
        forall j | 0 <= j < |s.tasks|
          ensures EarBehind(s.tasks[j], Next(s, e).value.shared) && Restful(Next(s, e).value, s.tasks[j])
        {
          var s1 := Next(s, e).value;
          assert EarBehind(s.tasks[j], s.shared) && Restful(s, s.tasks[j]);
          if Pending(s, Hears(s.tasks[j])) { assert Pending(s1, Hears(s.tasks[j])); }
        }
    }
  }

  /** A call begins or is dropped: it was not about to wake anybody. */
  lemma PutKeeps(s: State, i: nat, t: Task)
    requires Inv(s) && i < |s.tasks| && (Start(t) || t == Idle)
    requires s.tasks[i] == Idle || s.tasks[i].Sleeps? || s.tasks[i].Rests?
    ensures Inv(Put(s, i, t))
  {
    var s1 := Put(s, i, t);
    forall j | 0 <= j < |s1.tasks| ensures EarBehind(s1.tasks[j], s1.shared) && Restful(s1, s1.tasks[j]) {
      assert EarBehind(s.tasks[j], s.shared) && Restful(s, s.tasks[j]);
      if j != i && Pending(s, Hears(s.tasks[j])) {
        var k :| 0 <= k < |s.tasks| && Wakes(s.tasks[k], Hears(s.tasks[j]));
        assert Wakes(s1.tasks[k], Hears(s.tasks[j]));
      }
    }
  }

  // ---- runs ----

  function Fresh(queue: nat, desync: bool, calls: nat): State {
    State(Shared(queue, false, false, desync, false, 0, 0), seq(calls, _ => Idle))
  }

  ghost function Run(s: State, events: seq<Event>): Option<State> {
    if events == [] then Some(s)
    else
      var before := Run(s, events[..|events| - 1]);
      if before.None? then None else Next(before.value, events[|events| - 1])
  }

  lemma {:induction false} RunKeeps(queue: nat, desync: bool, calls: nat, events: seq<Event>)
    requires Run(Fresh(queue, desync, calls), events).Some?
    ensures Inv(Run(Fresh(queue, desync, calls), events).value)
  {
    hide Next;
    if events != [] {
      hide Inv;
      var front := events[..|events| - 1];
      RunKeeps(queue, desync, calls, front);
      NextKeeps(Run(Fresh(queue, desync, calls), front).value, events[|events| - 1]);
    }
  }

  /**
   No lost wake-up: a call that sleeps with nobody about to notify its signal
   has nothing to do: no request waits for it and the connection is live, or what
   it waits for has not come about.
   */
  lemma NoLostWakeUp(queue: nat, desync: bool, calls: nat, events: seq<Event>, i: nat)
    requires Run(Fresh(queue, desync, calls), events).Some?
    requires i < |Run(Fresh(queue, desync, calls), events).value.tasks|
    ensures var s := Run(Fresh(queue, desync, calls), events).value;
            var t := s.tasks[i];
            Step(s, i).None? && t != Idle && !Pending(s, Hears(t)) ==>
              if t.Sleeps? then s.shared.queue == 0 && Live(s.shared) else t.Rests? && !Over(s.shared, t.goal)
  {
    RunKeeps(queue, desync, calls, events);
    var s := Run(Fresh(queue, desync, calls), events).value;
    hide Run, Pending;
    assert Restful(s, s.tasks[i]);
  }

  /** How many of its own steps a call is away from notifying `signal`. */
  function Away(t: Task, signal: Signal): nat {
    match t
    case ReadsStep => 5
    case StoresStep(_) => 4
    case Stops => 3
    case TellsAll => if signal == Incoming then 1 else 2
    case _ => 1
  }

  /** And the notification comes: the call can always go on, and each step notifies or comes closer. */
  lemma PendingWakeComes(s: Shared, t: Task, signal: Signal)
    requires Wakes(t, signal)
    ensures Move(s, t).Some?
    ensures var (s1, u) := Move(s, t).value;
            Count(s1, signal) > Count(s, signal) || (Wakes(u, signal) && Away(u, signal) < Away(t, signal))
  {
  }
}
