/** A channel without delayed ack over a whole run: exactly when it has one go-ahead throughout. */
module SplitGoAhead {
  import opened Prelude
  import opened Slots
  import opened ChannelTables
  import opened SplitMachine
  import opened SplitInvariants
  import opened SplitBasic
  import opened SplitCredit
  import opened SplitLine
  import opened SplitWake
  import opened SplitDebt
  import opened SplitOpen
  import opened SplitRuns

  /** The channel `local` is in slot `idx`. */
  ghost predicate Lives(s: State, idx: nat, local: nat) {
    idx < |s.table.slots| && idx < |s.books| && Ours(s.table.slots[idx], local)
  }

  ghost predicate OneGoAhead(s: State, idx: nat, local: nat) {
    Lives(s, idx, local) ==> GoAheads(s, idx, s.table.slots[idx].value) == 1
  }

  /** In every state the run passes through. */
  ghost predicate AlwaysOne(start: State, moves: seq<Move>, idx: nat, local: nat)
    requires After(start, moves).Some?
  {
    OneGoAhead(After(start, moves).value, idx, local)
    && (moves == [] || AlwaysOne(start, moves[..|moves| - 1], idx, local))
  }

  /** No move of the run is one of the two that `Untidies` names, on this channel. */
  ghost predicate NeverUntidied(start: State, moves: seq<Move>, idx: nat, local: nat)
    requires After(start, moves).Some?
  {
    moves == [] ||
    (var front, m := moves[..|moves| - 1], moves[|moves| - 1];
     var s := After(start, front).value;
     NeverUntidied(start, front, idx, local) && !(Lives(s, idx, local) && Untidies(s, s.tasks[m.task], idx)))
  }

  /** A channel's book stays tidy in a step that is none of the two, and a new channel's book is. */
  lemma StepTidies(s: State, m: Move, idx: nat, local: nat)
    requires Inv(s) && Enabled(s, m) && Lives(Next(s, m.task, m.pick), idx, local)
    requires Lives(s, idx, local) ==> Tidy(s.books[idx]) && !Untidies(s, s.tasks[m.task], idx)
    ensures Tidy(Next(s, m.task, m.pick).books[idx])
  {
    hide CreditInv, LineInv, WakeInv, DebtInv, OpenInv, Step, PcShape, TableShape, TasksShape, AcceptedOpen, Untidies,
         Balanced, Lawful, CreditLaw, Tidy;
    var e := Step(s, m.task, m.pick).value;
    StepLawful(s, m.task, m.pick);
    StepCredits(s, m.task, m.pick);
    BookTells(s, s.tasks[m.task], e, idx);
    if !Lives(s, idx, local) { NewlyFilled(s, m.task, e, idx, local); }
  }

  lemma NewlyFilled(s: State, i: nat, e: Effect, idx: nat, local: nat)
    requires Basic(s) && i < |s.tasks| && Lawful(s, s.tasks[i], e) && CreditLaw(s, s.tasks[i], e)
    requires !Lives(s, idx, local) && Lives(Apply(s, i, e), idx, local)
    ensures Tidy(Apply(s, i, e).books[idx])
  {
    hide PcShape, TaskLaw, HandLaw, Balanced, TasksShape, AcceptedOpen;
  }

  lemma {:induction false} TidyMeanwhile(c: Setup, moves: seq<Move>, idx: nat, local: nat)
    requires Splittable(c.table) && After(Initial(c), moves).Some? && NeverUntidied(Initial(c), moves, idx, local)
    requires Lives(After(Initial(c), moves).value, idx, local)
    ensures Tidy(After(Initial(c), moves).value.books[idx])
  {
    if moves == [] {
    } else {
      hide Basic, CreditInv, LineInv, WakeInv, DebtInv, OpenInv, Step, Apply, Initial, Splittable, Tidy, Untidies,
           Lives;
      var front := moves[..|moves| - 1];
      var s := After(Initial(c), front).value;
      EveryRunKeeps(c, front);
      if Lives(s, idx, local) { TidyMeanwhile(c, front, idx, local); }
      StepTidies(s, moves[|moves| - 1], idx, local);
    }
  }

  /** Either of the two steps leaves the channel where it is, with two go-aheads. */
  lemma UntidiedHasTwo(s: State, m: Move, idx: nat, local: nat)
    requires Inv(s) && Enabled(s, m) && Lives(s, idx, local) && s.table.slots[idx].value.policy.ack == Classic
    requires Tidy(s.books[idx]) && Untidies(s, s.tasks[m.task], idx)
    ensures !OneGoAhead(Next(s, m.task, m.pick), idx, local)
  {
    hide CreditInv, LineInv, WakeInv, DebtInv, OpenInv, Step, PcShape, TableShape, TasksShape, AcceptedOpen, Lawful,
         Tidy;
    StaysThere(s, m.task, m.pick, idx, local);
    SecondGoAhead(s, m, Next(s, m.task, m.pick), idx);
  }

  lemma FreesNothing(s: State, i: nat, pick: Pick, idx: nat)
    requires Basic(s) && i < |s.tasks| && Step(s, i, pick).Some? && Untidies(s, s.tasks[i], idx)
    ensures !Step(s, i, pick).value.table.Drop?
  {
    hide Dispatch, StepAct, StepFail, StepNext, StepTry, StepLeave, StepCommit, TableShape, TasksShape, AcceptedOpen,
         SoundTable, Credited, Regretted;
  }

  lemma StaysThere(s: State, i: nat, pick: Pick, idx: nat, local: nat)
    requires Basic(s) && CreditInv(s) && i < |s.tasks| && Step(s, i, pick).Some? && Lives(s, idx, local)
    requires Untidies(s, s.tasks[i], idx)
    ensures Lives(Next(s, i, pick), idx, local)
  {
    hide Step, PcShape, TaskLaw, HandLaw, TasksShape, AcceptedOpen, Untidies, CreditInv, TableShape, SlotShape;
    StepLawful(s, i, pick);
    FreesNothing(s, i, pick, idx);
  }

  lemma {:induction false} PolicyStays(c: Setup, moves: seq<Move>)
    requires After(Initial(c), moves).Some?
    ensures After(Initial(c), moves).value.table.policy == c.table.policy
  {
    hide Step, Enabled, ChangeLines, ChangeBooks, ChangeAnswers, ChangeSig;
    if moves != [] { PolicyStays(c, moves[..|moves| - 1]); }
  }

  lemma OneMeanwhile(c: Setup, moves: seq<Move>, idx: nat, local: nat)
    requires Splittable(c.table) && After(Initial(c), moves).Some? && NeverUntidied(Initial(c), moves, idx, local)
    requires c.table.policy.ack == Classic
    ensures OneGoAhead(After(Initial(c), moves).value, idx, local)
  {
    hide After, Initial, NeverUntidied, Sum, Splittable;
    var s := After(Initial(c), moves).value;
    if Lives(s, idx, local) {
      TidyMeanwhile(c, moves, idx, local);
      ClassicSlot(c, moves, idx);
      CreditConserved(c, moves, s, idx);
    }
  }

  lemma ClassicSlot(c: Setup, moves: seq<Move>, idx: nat)
    requires Splittable(c.table) && After(Initial(c), moves).Some? && c.table.policy.ack == Classic
    requires idx < |After(Initial(c), moves).value.table.slots| && After(Initial(c), moves).value.table.slots[idx].Some?
    ensures After(Initial(c), moves).value.table.slots[idx].value.policy.ack == Classic
  {
    hide After, Initial, Splittable, CreditInv, LineInv, WakeInv, DebtInv, OpenInv, TasksShape, AcceptedOpen, PcShape;
    EveryRunKeeps(c, moves);
    PolicyStays(c, moves);
  }

  /**
   Without delayed ack a channel has exactly one go-ahead in every state of a run if
   and only if no step of the run takes an OKAY for it with no WRTE out and one
   reserved, or refunds a WRTE the device has while no go-ahead is free.
   */
  lemma {:induction false} OneThroughout(c: Setup, moves: seq<Move>, idx: nat, local: nat)
    requires Splittable(c.table) && After(Initial(c), moves).Some? && c.table.policy.ack == Classic
    ensures AlwaysOne(Initial(c), moves, idx, local) <==> NeverUntidied(Initial(c), moves, idx, local)
  {
    hide Basic, CreditInv, LineInv, WakeInv, DebtInv, OpenInv, Step, Apply, Initial, Splittable, Tidy, Untidies,
         OneGoAhead;
    if moves != [] {
      var front, m := moves[..|moves| - 1], moves[|moves| - 1];
      var s := After(Initial(c), front).value;
      OneThroughout(c, front, idx, local);
      EveryRunKeeps(c, front);
      if NeverUntidied(Initial(c), front, idx, local) && Lives(s, idx, local) && Untidies(s, s.tasks[m.task], idx) {
        TidyMeanwhile(c, front, idx, local);
        ClassicSlot(c, front, idx);
        UntidiedHasTwo(s, m, idx, local);
      }
    }
    if NeverUntidied(Initial(c), moves, idx, local) { OneMeanwhile(c, moves, idx, local); }
  }
}
