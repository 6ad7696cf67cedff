/**
 What `Logcat::read_entry` must give back (libadb/src/logcat.rs): the whole
 channel stream taken apart at once, and one turn of the reader's loop on plain
 values, which agrees with it however the stream is cut into reads.
 */
module LogStream {
  import opened Prelude
  import opened LogFormat

  const HEADER_SIZE := 5
  const STDERR_KEPT := 1024

  datatype FrameId = Stdout | Stderr | Exit

  // ---- the whole stream ----

  /** How the framed stream ends: an exit status, cut off, or a frame that cannot be. */
  datatype Finish = Exited(code: byte) | Cut | BadFrame(id: byte) | ShortExit

  datatype Stream = Stream(stdout: seq<byte>, stderr: seq<byte>, finish: Finish)

  datatype Header = Frame(id: FrameId, len: nat) | WrongId(byte: byte) | EmptyExit

  /** shell_v2 framing: an id byte and a 32-bit length. */
  function ParseHeader(bytes: seq<byte>): Header
    requires |bytes| >= HEADER_SIZE
  {
    var len := U32Le(bytes[1..5]);
    if bytes[0] == 1 then Frame(Stdout, len)
    else if bytes[0] == 2 then Frame(Stderr, len)
    else if bytes[0] == 3 then if len == 0 then EmptyExit else Frame(Exit, len)
    else WrongId(bytes[0])
  }

  function Prepend(id: FrameId, bytes: seq<byte>, s: Stream): Stream {
    if id == Stdout then s.(stdout := bytes + s.stdout) else s.(stderr := bytes + s.stderr)
  }

  /** Stdout, stderr and end of a stream, `left` bytes into a frame of kind `id`. */
  function Deframe(id: FrameId, left: nat, bytes: seq<byte>): Stream
    decreases |bytes|
  {
    if left > 0 then
      if bytes == [] then Stream([], [], Cut)
      else if id == Exit then Stream([], [], Exited(bytes[0]))
      else
        var n := Min(left, |bytes|);
        Prepend(id, bytes[..n], Deframe(id, left - n, bytes[n..]))
    else if |bytes| < HEADER_SIZE then Stream([], [], Cut)
    else
      match ParseHeader(bytes)
      case WrongId(byte) => Stream([], [], BadFrame(byte))
      case EmptyExit => Stream([], [], ShortExit)
      case Frame(next, len) => Deframe(next, len, bytes[HEADER_SIZE..])
  }

  /** The entries of a byte stream, and what is left behind the last of them. */
  datatype Entries = Entries(list: seq<LogEntry>, rest: seq<byte>, invalid: bool)

  function ParseAll(bytes: seq<byte>): Entries {
    match ParseEntry(bytes)
    case Incomplete => Entries([], bytes, false)
    case Invalid => Entries([], bytes, true)
    case Entry(e, n) => var more := ParseAll(bytes[n..]); more.(list := [e] + more.list)
  }

  /** How a call fails once the entries are exhausted; `StillOpen` is no failure yet. */
  datatype Verdict =
    | InvalidHeader
    | ChannelClosed
    | TruncatedEntry
    | LogcatExited(code: byte, stderr: seq<byte>)
    | ClosedWithoutExit
    | UnexpectedFrame(id: byte)
    | ShortExitPayload
    | StillOpen

  function Keep(stderr: seq<byte>): (r: seq<byte>)
    ensures |r| <= STDERR_KEPT
  {
    stderr[..Min(|stderr|, STDERR_KEPT)]
  }

  datatype Story = Story(entries: seq<LogEntry>, verdict: Verdict)

  /** Everything a reader gets to see, from the stdout still to come and the way the stream ends. */
  function Tell(acc: seq<byte>, stderr: seq<byte>, s: Stream, closes: bool): Story {
    var all := ParseAll(acc + s.stdout);
    Story(all.list,
      if all.invalid then InvalidHeader
      else
        match s.finish
        case Exited(code) =>
          if code != 0 then LogcatExited(code, Keep(stderr + s.stderr))
          else if all.rest != [] then TruncatedEntry else ChannelClosed
        case Cut => if closes then ClosedWithoutExit else StillOpen
        case BadFrame(id) => UnexpectedFrame(id)
        case ShortExit => ShortExitPayload)
  }

  /** The story of a whole channel stream. */
  function Whole(bytes: seq<byte>, closes: bool): Story { Tell([], [], Deframe(Stdout, 0, bytes), closes) }

  // ---- the reader, on plain values ----

  datatype End = NotYet | ExitedWith(code: byte) | Closed

  /** One channel read: at most so many bytes, or an error other than the channel's end. */
  datatype Cut = UpTo(n: nat) | Breaks

  /**
   A reader. `acc`: stdout not parsed yet; `raw`: bytes read and not deframed;
   both live in one buffer that is used up to `tail`. `unread` is what the
   channel will still deliver, in reads that end as `cuts` says; with no cut
   left a read stays pending.
   */
  datatype View = View(
    acc: seq<byte>,
    raw: seq<byte>,
    tail: nat,
    id: FrameId,
    left: nat,
    end: End,
    stderr: seq<byte>,
    unread: seq<byte>,
    cuts: seq<Cut>)

  /**
   A call returns an entry, fails for good, finds its buffer full, passes on a read error,
   or is dropped while it waits.
   */
  datatype Outcome = Got(entry: LogEntry) | Fails(verdict: Verdict) | Full | Broke | Dropped

  datatype Turn = Goes(view: View) | Returns(view: View, outcome: Outcome)

  /** `take_entry`, then the end if it has come. */
  function Answer(v: View): Option<(View, Outcome)> {
    match ParseEntry(v.acc)
    case Invalid => Some((v, Fails(InvalidHeader)))
    case Entry(e, n) => Some((v.(acc := v.acc[n..]), Got(e)))
    case Incomplete =>
      match v.end
      case NotYet => None
      case ExitedWith(code) =>
        Some((v, Fails(if code != 0 then LogcatExited(code, v.stderr)
                       else if v.acc != [] then TruncatedEntry else ChannelClosed)))
      case Closed => Some((v, Fails(ClosedWithoutExit)))
  }

  /** Part of the current frame is in the buffer. */
  function Absorb(v: View): View
    requires v.left > 0 && v.raw != []
  {
    if v.id == Exit then v.(end := ExitedWith(v.raw[0]))
    else
      var n := Min(v.left, |v.raw|);
      var next := v.(raw := v.raw[n..], left := v.left - n);
      if v.id == Stdout then next.(acc := v.acc + v.raw[..n]) else next.(stderr := Keep(v.stderr + v.raw[..n]))
  }

  /** `fill`: move everything to the front if the buffer has no room behind, then read once. */
  function Fill(v: View, len: nat, closes: bool): Turn {
    var tail := if v.tail == len then |v.acc| + |v.raw| else v.tail;
    if tail >= len then Returns(v.(tail := tail), Full)
    else if v.cuts == [] || (v.cuts[0].UpTo? && v.unread == [] && !closes) then Returns(v.(tail := tail), Dropped)
    else if v.cuts[0].Breaks? then Returns(v.(tail := tail, cuts := v.cuts[1..]), Broke)
    else if v.unread == [] then Goes(v.(tail := tail, cuts := v.cuts[1..], end := Closed))
    else
      var n := Min(v.cuts[0].n, Min(len - tail, |v.unread|));
      Goes(v.(tail := tail + n, raw := v.raw + v.unread[..n], unread := v.unread[n..], cuts := v.cuts[1..]))
  }

  /** One turn of the loop of `read_entry`. */
  function TakeTurn(v: View, len: nat, closes: bool): Turn {
    var answer := Answer(v);
    if answer.Some? then Returns(answer.value.0, answer.value.1)
    else if v.left > 0 && v.raw != [] then Goes(Absorb(v))
    else if v.left == 0 && |v.raw| >= HEADER_SIZE then
      match ParseHeader(v.raw)
      case EmptyExit => Returns(v, Fails(ShortExitPayload))
      case WrongId(byte) => Returns(v, Fails(UnexpectedFrame(byte)))
      case Frame(id, len) => Goes(v.(raw := v.raw[HEADER_SIZE..], id := id, left := len))
    else Fill(v, len, closes)
  }

  // ---- a turn changes nothing about the story ----

  function StreamOf(v: View): Stream {
    match v.end
    case NotYet => Deframe(v.id, v.left, v.raw + v.unread)
    case ExitedWith(code) => Stream([], [], Exited(code))
    case Closed => Stream([], [], Cut)
  }

  function StoryOf(v: View, closes: bool): Story { Tell(v.acc, v.stderr, StreamOf(v), closes || v.end.Closed?) }

  /** What holds of a view between turns. */
  predicate Sane(v: View, len: nat) { |v.acc| + |v.raw| <= v.tail <= len && |v.stderr| <= STDERR_KEPT }

  lemma DeframeFirst(id: FrameId, left: nat, bytes: seq<byte>)
    requires id != Exit && left > 0
    ensures var n := Min(left, |bytes|);
            Deframe(id, left, bytes) == Prepend(id, bytes[..n], Deframe(id, left - n, bytes[n..]))
  {
  }

  lemma PrependTwice(id: FrameId, a: seq<byte>, b: seq<byte>, s: Stream)
    ensures Prepend(id, a, Prepend(id, b, s)) == Prepend(id, a + b, s)
  {
    assert a + (b + s.stdout) == (a + b) + s.stdout;
    assert a + (b + s.stderr) == (a + b) + s.stderr;
  }

  /** Taking a frame apart piece by piece is taking it apart at once. */
  lemma DeframePiece(id: FrameId, left: nat, bytes: seq<byte>, n: nat)
    requires id != Exit && 0 < n <= left && n <= |bytes|
    ensures Deframe(id, left, bytes) == Prepend(id, bytes[..n], Deframe(id, left - n, bytes[n..]))
  {
    hide Deframe, Prepend;
    DeframeFirst(id, left, bytes);
    var m := Min(left, |bytes|);
    if n < m {
      DeframeFirst(id, left - n, bytes[n..]);
      var rest := Deframe(id, left - m, bytes[m..]);
      assert bytes[n..][m - n..] == bytes[m..];
      PrependTwice(id, bytes[..n], bytes[n..][..m - n], rest);
      assert bytes[..n] + bytes[n..][..m - n] == bytes[..m];
    }
  }

  /** The same, with the piece at the front of what has been read. */
  lemma DeframeRead(id: FrameId, left: nat, raw: seq<byte>, unread: seq<byte>, n: nat)
    requires id != Exit && 0 < n <= left && n <= |raw|
    ensures Deframe(id, left, raw + unread) == Prepend(id, raw[..n], Deframe(id, left - n, raw[n..] + unread))
  {
    hide Deframe, Prepend;
    DeframePiece(id, left, raw + unread, n);
    assert (raw + unread)[..n] == raw[..n];
    assert (raw + unread)[n..] == raw[n..] + unread;
  }

  lemma KeepOften(a: seq<byte>, b: seq<byte>, c: seq<byte>)
    ensures Keep(Keep(a + b) + c) == Keep(a + (b + c))
    ensures |a| <= STDERR_KEPT ==> Keep(a) == a
  {
    assert a + (b + c) == (a + b) + c;
  }

  lemma ParsesOn(acc: seq<byte>, more: seq<byte>)
    requires ParseEntry(acc).Entry?
    ensures var n := ParseEntry(acc).consumed;
            var rest := ParseAll(acc[n..] + more);
            ParseAll(acc + more) == rest.(list := [ParseEntry(acc).entry] + rest.list)
  {
    ParseStable(acc, more);
    var n := ParseEntry(acc).consumed;
    assert (acc + more)[n..] == acc[n..] + more;
  }

  /** An answer is the next thing the story tells. */
  lemma AnswerTells(v: View, closes: bool)
    requires Answer(v).Some? && |v.stderr| <= STDERR_KEPT
    ensures var (v', outcome) := Answer(v).value;
            var story := StoryOf(v, closes);
            match outcome
            case Got(e) => story == Story([e] + StoryOf(v', closes).entries, StoryOf(v', closes).verdict)
            case Fails(verdict) => story == Story([], verdict) && v' == v
            case _ => false
  {
    hide ParseEntry, Deframe;
    var s := StreamOf(v);
    match ParseEntry(v.acc)
    case Entry(e, n) => ParsesOn(v.acc, s.stdout);
    case Invalid => ParseStable(v.acc, s.stdout);
    case Incomplete =>
      assert v.acc + [] == v.acc && v.stderr + [] == v.stderr;
      KeepOften(v.stderr, [], []);
  }

  /** Bytes told from the stream or already absorbed: the story is the same. */
  lemma PrependTells(acc: seq<byte>, stderr: seq<byte>, bytes: seq<byte>, s: Stream, closes: bool)
    ensures Tell(acc, stderr, Prepend(Stdout, bytes, s), closes) == Tell(acc + bytes, stderr, s, closes)
    ensures Tell(acc, stderr, Prepend(Stderr, bytes, s), closes) == Tell(acc, Keep(stderr + bytes), s, closes)
  {
    hide ParseAll, Keep;
    assert acc + (bytes + s.stdout) == (acc + bytes) + s.stdout;
    KeepOften(stderr, bytes, s.stderr);
  }

  lemma AbsorbTells(v: View, closes: bool)
    requires v.end.NotYet? && v.left > 0 && v.raw != []
    ensures StoryOf(Absorb(v), closes) == StoryOf(v, closes)
  {
    if v.id == Exit {
      AbsorbExit(v, closes);
    } else {
      hide StoryOf, Keep;
      var n := Min(v.left, |v.raw|);
      PieceTells(v, v.raw[..n], v.raw[n..], n, closes);
    }
  }

  /** The piece of a frame that is absorbed, and what stays behind it. */
  lemma PieceTells(v: View, piece: seq<byte>, rest: seq<byte>, n: nat, closes: bool)
    requires v.end.NotYet? && 0 < n <= v.left && n <= |v.raw| && piece == v.raw[..n] && rest == v.raw[n..]
    ensures v.id == Stdout ==>
              StoryOf(v.(raw := rest, left := v.left - n, acc := v.acc + piece), closes) == StoryOf(v, closes)
    ensures v.id == Stderr ==>
              StoryOf(v.(raw := rest, left := v.left - n, stderr := Keep(v.stderr + piece)), closes)
              == StoryOf(v, closes)
  {
    hide Tell, Deframe, Keep, Prepend;
    if v.id != Exit {
      DeframeRead(v.id, v.left, v.raw, v.unread, n);
      PrependTells(v.acc, v.stderr, piece, Deframe(v.id, v.left - n, rest + v.unread), closes);
    }
  }

  lemma AbsorbExit(v: View, closes: bool)
    requires v.end.NotYet? && v.left > 0 && v.raw != [] && v.id == Exit
    ensures StoryOf(Absorb(v), closes) == StoryOf(v, closes)
  {
    hide ParseAll;
    assert (v.raw + v.unread)[0] == v.raw[0];
  }

  lemma FillTells(v: View, len: nat, closes: bool)
    requires v.end.NotYet? && (if v.left > 0 then v.raw == [] else |v.raw| < HEADER_SIZE)
    ensures StoryOf(Fill(v, len, closes).view, closes) == StoryOf(v, closes)
  {
    hide ParseAll;
    var f := Fill(v, len, closes);
    if f.Goes? && v.unread == [] {
      assert v.raw + v.unread == v.raw;
    } else {
      assert f.view.raw + f.view.unread == v.raw + v.unread;
    }
  }

  /**
   Every turn tells the story on: a turn that goes on changes nothing about it,
   an entry returned is its next entry, a failure is its verdict with no entry
   left and stays so, and a full buffer, a broken read or a dropped call loses
   nothing.
   */
  lemma TurnTells(v: View, len: nat, closes: bool)
    requires Sane(v, len)
    ensures var turn := TakeTurn(v, len, closes);
            var story := StoryOf(v, closes);
            var after := StoryOf(turn.view, closes);
            && Sane(turn.view, len)
            && (turn.Goes? ==> after == story)
            && (turn.Returns? ==>
                  match turn.outcome
                  case Got(e) => story == Story([e] + after.entries, after.verdict)
                  case Fails(verdict) => story == Story([], verdict) && turn.view == v
                  case _ => after == story)
  {
    hide ParseAll, Tell, Deframe;
    if Answer(v).Some? {
      AnswerTells(v, closes);
    } else if v.left > 0 && v.raw != [] {
      AbsorbTells(v, closes);
    } else if v.left == 0 && |v.raw| >= HEADER_SIZE {
      HeaderTells(v, len, closes);
    } else {
      FillTells(v, len, closes);
    }
  }

  lemma HeaderTells(v: View, len: nat, closes: bool)
    requires Answer(v).None? && v.left == 0 && |v.raw| >= HEADER_SIZE
    ensures var turn := TakeTurn(v, len, closes);
            && (turn.Goes? ==> StoryOf(turn.view, closes) == StoryOf(v, closes))
            && (turn.Returns? ==>
                  turn.outcome.Fails? && turn.view == v && StoryOf(v, closes) == Story([], turn.outcome.verdict))
  {
    hide U32Le;
    var bytes := v.raw + v.unread;
    assert bytes[1..5] == v.raw[1..5] && bytes[0] == v.raw[0];
    assert bytes[HEADER_SIZE..] == v.raw[HEADER_SIZE..] + v.unread;
    assert v.acc + [] == v.acc;
  }

  // ---- one call ----

  /** `read_entry`: turns until one returns. Between reads each turn shrinks what is buffered or finds the end. */
  function Read(v: View, len: nat, closes: bool): (r: (View, Outcome))
    decreases |v.cuts|, if v.end.NotYet? then 1 else 0, |v.raw|
  {
    match TakeTurn(v, len, closes)
    case Returns(v', outcome) => (v', outcome)
    case Goes(v') => Read(v', len, closes)
  }

  /**
   The refinement, call by call: an entry returned is the next of the whole
   stream's parse, a failure is the stream's verdict after its last entry, and
   a call that was dropped or ran out of buffer has lost nothing.
   */
  lemma {:induction false} ReadTells(v: View, len: nat, closes: bool)
    requires Sane(v, len)
    ensures var (v', outcome) := Read(v, len, closes);
            var story, after := StoryOf(v, closes), StoryOf(v', closes);
            && Sane(v', len)
            && match outcome
               case Got(e) => story == Story([e] + after.entries, after.verdict)
               case Fails(verdict) =>
                 story == after == Story([], verdict) && TakeTurn(v', len, closes) == Returns(v', outcome)
               case _ => after == story
    decreases |v.cuts|, if v.end.NotYet? then 1 else 0, |v.raw|
  {
    hide StoryOf, Sane;
    TurnTells(v, len, closes);
    var turn := TakeTurn(v, len, closes);
    if turn.Goes? { ReadTells(turn.view, len, closes); }
  }

  // ---- many calls ----

  /** Calls one after the other, each with the channel reads that end before it returns or is dropped. */
  function Calls(v: View, len: nat, closes: bool, calls: seq<seq<Cut>>): (r: (View, seq<Outcome>))
    ensures |r.1| == |calls|
  {
    if calls == [] then (v, [])
    else
      var n := |calls| - 1;
      var (before, outcomes) := Calls(v, len, closes, calls[..n]);
      var (after, outcome) := Read(before.(cuts := calls[n]), len, closes);
      (after, outcomes + [outcome])
  }

  /** The entries calls returned, in order. */
  function Listed(outcomes: seq<Outcome>): seq<LogEntry> {
    if outcomes == [] then []
    else
      var n := |outcomes| - 1;
      Listed(outcomes[..n]) + if outcomes[n].Got? then [outcomes[n].entry] else []
  }

  /** What a reader has still to tell does not depend on how its reads will end, and neither does a failure. */
  lemma CutsAside(v: View, len: nat, closes: bool, cuts: seq<Cut>)
    ensures StoryOf(v.(cuts := cuts), closes) == StoryOf(v, closes) && Ahead(v.(cuts := cuts)) == Ahead(v)
    ensures Sane(v, len) ==> Sane(v.(cuts := cuts), len)
    ensures forall x :: TakeTurn(v, len, closes) == Returns(v, Fails(x)) ==>
              TakeTurn(v.(cuts := cuts), len, closes) == Returns(v.(cuts := cuts), Fails(x))
  {
    hide ParseAll, Deframe, ParseEntry, ParseHeader;
  }

  /** The verdict has been told, after every entry, and each call since has repeated it. */
  ghost predicate ToldOnce(outcomes: seq<Outcome>, story: Story) {
    forall k :: 0 <= k < |outcomes| && outcomes[k].Fails? ==>
      && outcomes[k].verdict == story.verdict && Listed(outcomes[..k]) == story.entries
      && forall j :: k <= j < |outcomes| ==> outcomes[j] == outcomes[k]
  }

  ghost predicate Stuck(v: View, len: nat, closes: bool, outcomes: seq<Outcome>) {
    outcomes != [] && outcomes[|outcomes| - 1].Fails? ==>
      TakeTurn(v, len, closes) == Returns(v, outcomes[|outcomes| - 1])
  }

  /** One call more. */
  lemma ToldOnceMore(outcomes: seq<Outcome>, outcome: Outcome, story: Story)
    requires ToldOnce(outcomes, story)
    requires outcome.Fails? ==> outcome.verdict == story.verdict && Listed(outcomes) == story.entries
    requires outcomes != [] && outcomes[|outcomes| - 1].Fails? ==> outcome == outcomes[|outcomes| - 1]
    ensures ToldOnce(outcomes + [outcome], story)
  {
    hide Listed;
    var all := outcomes + [outcome];
    forall k | 0 <= k < |all| && all[k].Fails?
      ensures all[k].verdict == story.verdict && Listed(all[..k]) == story.entries
      ensures forall j :: k <= j < |all| ==> all[j] == all[k]
    {
      if k < |outcomes| {
        assert all[..k] == outcomes[..k];
        assert outcomes[|outcomes| - 1] == outcomes[k];
      } else {
        assert all[..k] == outcomes;
      }
    }
  }

  lemma OneMoreTold(entries: seq<LogEntry>, e: LogEntry, rest: seq<LogEntry>)
    ensures entries + ([e] + rest) == (entries + [e]) + rest
  {
  }

  lemma NoneLeft(entries: seq<LogEntry>)
    ensures entries + [] == entries
  {
  }

  /** A reader that has failed fails again, with whatever reads. */
  lemma FailsAgain(v: View, len: nat, closes: bool, verdict: Verdict, cuts: seq<Cut>)
    requires TakeTurn(v, len, closes) == Returns(v, Fails(verdict))
    ensures Read(v.(cuts := cuts), len, closes) == (v.(cuts := cuts), Fails(verdict))
  {
    CutsAside(v, len, closes, cuts);
    hide TakeTurn;
  }

  lemma ListedMore(outcomes: seq<Outcome>, outcome: Outcome)
    ensures Listed(outcomes + [outcome]) == Listed(outcomes) + if outcome.Got? then [outcome.entry] else []
  {
    assert (outcomes + [outcome])[..|outcomes|] == outcomes;
  }

  /**
   The refinement over any number of calls, dropped as often as you like: the
   entries returned are the whole stream's first ones, the rest is still to come;
   the first failure comes after the last entry with the stream's verdict, and
   every later call repeats it.
   */
  lemma {:induction false} CallsTell(v: View, len: nat, closes: bool, calls: seq<seq<Cut>>)
    requires Sane(v, len)
    ensures var (v', outcomes) := Calls(v, len, closes, calls);
            var story, rest := StoryOf(v, closes), StoryOf(v', closes);
            && Sane(v', len) && Stuck(v', len, closes, outcomes)
            && Listed(outcomes) + rest.entries == story.entries && rest.verdict == story.verdict
            && ToldOnce(outcomes, story)
  {
    hide StoryOf, Sane, Read, Stuck, ToldOnce, Listed;
    if calls == [] {
      NoCalls(v, len, closes);
    } else {
      var n := |calls| - 1;
      CallsTell(v, len, closes, calls[..n]);
      var (before, outcomes) := Calls(v, len, closes, calls[..n]);
      CutsAside(before, len, closes, calls[n]);
      OneCallTells(StoryOf(v, closes), before, len, closes, outcomes, calls[n]);
    }
  }

  lemma NoCalls(v: View, len: nat, closes: bool)
    ensures Stuck(v, len, closes, []) && Listed([]) + StoryOf(v, closes).entries == StoryOf(v, closes).entries
    ensures ToldOnce([], StoryOf(v, closes))
  {
    hide StoryOf;
    assert [] + StoryOf(v, closes).entries == StoryOf(v, closes).entries;
  }

  lemma OneCallTells(story: Story, before: View, len: nat, closes: bool, outcomes: seq<Outcome>, cuts: seq<Cut>)
    requires Sane(before, len) && Stuck(before, len, closes, outcomes) && ToldOnce(outcomes, story)
    requires Listed(outcomes) + StoryOf(before, closes).entries == story.entries
             && StoryOf(before, closes).verdict == story.verdict
    ensures var (v', outcome) := Read(before.(cuts := cuts), len, closes);
            var all, rest := outcomes + [outcome], StoryOf(v', closes);
            && Sane(v', len) && Stuck(v', len, closes, all)
            && Listed(all) + rest.entries == story.entries && rest.verdict == story.verdict && ToldOnce(all, story)
  {
    hide StoryOf, Sane, Read, TakeTurn, ToldOnce, Listed;
    var w := before.(cuts := cuts);
    CutsAside(before, len, closes, cuts);
    ReadTells(w, len, closes);
    var (v', outcome) := Read(w, len, closes);
    if outcomes != [] && outcomes[|outcomes| - 1].Fails? {
      FailsAgain(before, len, closes, outcomes[|outcomes| - 1].verdict, cuts);
    }
    ListedMore(outcomes, outcome);
    NoneLeft(Listed(outcomes));
    if outcome.Got? { OneMoreTold(Listed(outcomes), outcome.entry, StoryOf(v', closes).entries); }
    ToldOnceMore(outcomes, outcome, story);
  }

  /** And no call finds its buffer full, if it is four bytes longer than the longest entry. */
  lemma {:induction false} CallsHaveRoom(v: View, len: nat, closes: bool, calls: seq<seq<Cut>>)
    requires Sane(v, len) && len >= HEADER_SIZE
    requires Longest(Ahead(v)) + 4 <= len || LOGGER_ENTRY_MAX_LEN + 4 <= len
    ensures Full !in Calls(v, len, closes, calls).1
    ensures Sane(Calls(v, len, closes, calls).0, len)
            && Longest(Ahead(Calls(v, len, closes, calls).0)) <= Longest(Ahead(v))
  {
    hide Sane, Read, Ahead, Longest, StoryOf;
    if calls != [] {
      var n := |calls| - 1;
      CallsHaveRoom(v, len, closes, calls[..n]);
      var before := Calls(v, len, closes, calls[..n]).0;
      CutsAside(before, len, closes, calls[n]);
      ReadTells(before.(cuts := calls[n]), len, closes);
      ReadHasRoom(before.(cuts := calls[n]), len, closes);
    }
  }

  /** A failure is for good: the next call fails the same way and changes nothing. */
  lemma FailureRepeats(v: View, len: nat, closes: bool)
    requires Sane(v, len) && Read(v, len, closes).1.Fails?
    ensures Read(Read(v, len, closes).0, len, closes) == Read(v, len, closes)
  {
    ReadTells(v, len, closes);
  }

  // ---- how large a buffer it takes ----

  /** The longest entry a byte stream begins, by its announced length; a begun header counts as the shortest one. */
  function Longest(bytes: seq<byte>): (n: nat)
    ensures n <= LOGGER_ENTRY_MAX_LEN
    ensures bytes != [] ==> n >= HEADER_V3_SIZE
    decreases |bytes|
  {
    if bytes == [] then 0
    else if |bytes| < HEADER_PREFIX || BadHeader(bytes) then HEADER_V3_SIZE
    else if |bytes| <= Announced(bytes) then Announced(bytes)
    else Max(Announced(bytes), Longest(bytes[Announced(bytes)..]))
  }

  /** All stdout still to be parsed, arrived or not. */
  function Ahead(v: View): seq<byte> { v.acc + StreamOf(v).stdout }

  lemma AbsorbKeepsAhead(v: View)
    requires v.end.NotYet? && v.left > 0 && v.raw != []
    ensures Ahead(Absorb(v)) == Ahead(v)
  {
    hide Keep;
    if v.id == Exit {
      assert (v.raw + v.unread)[0] == v.raw[0];
    } else {
      hide Deframe;
      var n := Min(v.left, |v.raw|);
      DeframeRead(v.id, v.left, v.raw, v.unread, n);
      assert v.acc + (v.raw[..n] + Deframe(v.id, v.left - n, v.raw[n..] + v.unread).stdout)
             == (v.acc + v.raw[..n]) + Deframe(v.id, v.left - n, v.raw[n..] + v.unread).stdout;
    }
  }

  lemma HeaderKeepsStream(v: View, len: nat, closes: bool)
    requires v.end.NotYet? && Answer(v).None? && v.left == 0 && |v.raw| >= HEADER_SIZE
    ensures StreamOf(TakeTurn(v, len, closes).view).stdout == StreamOf(v).stdout
  {
    hide U32Le, ParseEntry;
    var bytes := v.raw + v.unread;
    assert bytes[1..5] == v.raw[1..5] && bytes[0] == v.raw[0];
    assert bytes[HEADER_SIZE..] == v.raw[HEADER_SIZE..] + v.unread;
  }

  lemma FillKeepsStream(v: View, len: nat, closes: bool)
    requires v.end.NotYet? && (if v.left > 0 then v.raw == [] else |v.raw| < HEADER_SIZE)
    ensures StreamOf(Fill(v, len, closes).view).stdout == StreamOf(v).stdout
  {
    var f := Fill(v, len, closes);
    if f.Goes? && v.unread == [] {
      assert v.raw + v.unread == v.raw;
    } else {
      assert f.view.raw + f.view.unread == v.raw + v.unread;
    }
  }

  lemma AccAside(v: View, acc: seq<byte>)
    ensures StreamOf(v.(acc := acc)) == StreamOf(v)
  {
  }

  /** Entries only leave the front of it. */
  lemma TurnKeepsAhead(v: View, len: nat, closes: bool)
    ensures Longest(Ahead(TakeTurn(v, len, closes).view)) <= Longest(Ahead(v))
  {
    hide StreamOf, Longest, ParseEntry;
    if Answer(v).Some? {
      var v' := TakeTurn(v, len, closes).view;
      AccAside(v, v'.acc);
      if ParseEntry(v.acc).Entry? { LongestDrops(v.acc, StreamOf(v).stdout); }
    } else if v.left > 0 && v.raw != [] {
      AbsorbKeepsAhead(v);
    } else if v.left == 0 && |v.raw| >= HEADER_SIZE {
      HeaderKeepsStream(v, len, closes);
    } else {
      FillKeepsStream(v, len, closes);
    }
  }

  lemma LongestDrops(acc: seq<byte>, more: seq<byte>)
    requires ParseEntry(acc).Entry?
    ensures Longest(acc[ParseEntry(acc).consumed..] + more) <= Longest(acc + more)
  {
    hide Split, U32Le;
    AnnouncedStable(acc, more);
    var n := ParseEntry(acc).consumed;
    assert (acc + more)[n..] == acc[n..] + more;
  }

  /** Four bytes more than the longest entry are enough for every turn. */
  lemma TurnHasRoom(v: View, len: nat, closes: bool)
    requires Sane(v, len) && len >= HEADER_SIZE && Longest(Ahead(v)) + 4 <= len
    ensures TakeTurn(v, len, closes).Returns? ==> TakeTurn(v, len, closes).outcome != Full
  {
    hide StreamOf, Split, U32Le;
    if Answer(v).None? && |v.acc| >= HEADER_PREFIX { AnnouncedStable(v.acc, StreamOf(v).stdout); }
  }

  /**
   The buffer bound: with a buffer four bytes longer than the longest entry no
   call finds it full, whatever the cuts; 5 KiB and four bytes always do.
   */
  lemma {:induction false} ReadHasRoom(v: View, len: nat, closes: bool)
    requires Sane(v, len) && len >= HEADER_SIZE
    requires Longest(Ahead(v)) + 4 <= len || LOGGER_ENTRY_MAX_LEN + 4 <= len
    ensures Read(v, len, closes).1 != Full
    ensures Longest(Ahead(Read(v, len, closes).0)) <= Longest(Ahead(v))
    decreases |v.cuts|, if v.end.NotYet? then 1 else 0, |v.raw|
  {
    hide Ahead, Longest, StoryOf;
    TurnHasRoom(v, len, closes);
    TurnKeepsAhead(v, len, closes);
    TurnTells(v, len, closes);
    var turn := TakeTurn(v, len, closes);
    if turn.Goes? { ReadHasRoom(turn.view, len, closes); }
  }

  // ---- and that no smaller one does ----

  /** A fresh reader. */
  function Fresh(unread: seq<byte>, cuts: seq<Cut>): View { View([], [], 0, Stdout, 0, NotYet, [], unread, cuts) }

  /** The story of a fresh reader is that of the whole stream, whatever the cuts. */
  lemma FreshTells(unread: seq<byte>, cuts: seq<Cut>, closes: bool)
    ensures StoryOf(Fresh(unread, cuts), closes) == Whole(unread, closes)
  {
    assert [] + unread == unread;
  }

  function StdoutHeader(len: nat): (h: seq<byte>)
    requires len < 0x1_0000_0000
    ensures |h| == HEADER_SIZE && ParseHeader(h) == Frame(Stdout, len)
  {
    var h := [1] + U32ToLe(len);
    assert h[1..5] == U32ToLe(len);
    h
  }

  /**
   The bound is exact: one byte less and some stream, cut somehow, fills the
   buffer: all but one byte of an entry, then four bytes of the next header.
   */
  lemma OneLessIsTooSmall(entry: seq<byte>)
    requires ParseEntry(entry).Entry? && ParseEntry(entry).consumed == |entry|
    ensures var n := |entry| - 1;
            var bytes := StdoutHeader(n) + entry[..n] + StdoutHeader(1) + entry[n..];
            && Whole(bytes, false).entries == [ParseEntry(entry).entry]
            && Read(Fresh(bytes, [UpTo(5), UpTo(n - 1), UpTo(5)]), |entry| + 3, false).1 == Full
  {
    hide Read, Whole, ParseEntry;
    SplitStream(entry);
    SplitFills(entry);
  }

  /** A frame, header and all, at the front of a stream. */
  lemma DeframeFrame(payload: seq<byte>, rest: seq<byte>)
    requires 0 < |payload| < 0x1_0000_0000
    ensures Deframe(Stdout, 0, StdoutHeader(|payload|) + payload + rest)
            == Prepend(Stdout, payload, Deframe(Stdout, 0, rest))
  {
    hide U32Le;
    var h := StdoutHeader(|payload|);
    var bytes := h + payload + rest;
    assert bytes[0] == h[0] && bytes[1..5] == h[1..5] && bytes[5..] == payload + rest;
    assert Deframe(Stdout, 0, bytes) == Deframe(Stdout, |payload|, payload + rest);
    assert (payload + rest)[..|payload|] == payload && (payload + rest)[|payload|..] == rest;
  }

  lemma SplitStream(entry: seq<byte>)
    requires ParseEntry(entry).Entry? && ParseEntry(entry).consumed == |entry|
    ensures var n := |entry| - 1;
            Whole(StdoutHeader(n) + entry[..n] + StdoutHeader(1) + entry[n..], false).entries
            == [ParseEntry(entry).entry]
  {
    hide ParseEntry, StdoutHeader, Deframe;
    var n := |entry| - 1;
    var h1, h2 := StdoutHeader(n), StdoutHeader(1);
    DeframeFrame(entry[..n], h2 + entry[n..]);
    assert h1 + entry[..n] + h2 + entry[n..] == h1 + entry[..n] + (h2 + entry[n..]);
    DeframeFrame(entry[n..], []);
    assert h2 + entry[n..] + [] == h2 + entry[n..];
    NothingParsed();
    var bytes := h1 + entry[..n] + h2 + entry[n..];
    assert Deframe(Stdout, 0, bytes).stdout == entry by {
      assert entry[..n] + (entry[n..] + []) == entry;
    }
    assert [] + entry == entry && entry[|entry|..] == [];
    assert ParseAll(entry[|entry|..]) == Entries([], [], false);
  }

  /** All of an entry but its end: nothing to return yet. */
  lemma Unfinished(entry: seq<byte>, k: nat)
    requires ParseEntry(entry).Entry? && ParseEntry(entry).consumed == |entry| && k < |entry|
    ensures ParseEntry(entry[..k]).Incomplete?
  {
    if k >= HEADER_PREFIX {
      AnnouncedStable(entry[..k], entry[k..]);
      assert entry[..k] + entry[k..] == entry;
    }
  }

  /** A turn that reads `chunk`. */
  lemma FillGoes(v: View, chunk: seq<byte>, raw: seq<byte>, rest: seq<byte>, cuts: seq<Cut>, tail: nat, len: nat)
    requires v.end.NotYet? && ParseEntry(v.acc).Incomplete?
             && (if v.left > 0 then v.raw == [] else |v.raw| < HEADER_SIZE)
    requires chunk != [] && v.unread == chunk + rest && v.cuts == [UpTo(|chunk|)] + cuts
    requires if v.raw == [] then raw == chunk else raw == v.raw + chunk
    requires tail == (if v.tail == len then |v.acc| + |v.raw| else v.tail) && tail + |chunk| <= len
    ensures Read(v, len, false)
            == Read(v.(raw := raw, unread := rest, cuts := cuts, tail := tail + |chunk|), len, false)
  {
    hide ParseEntry, ParseHeader, Read;
    assert v.unread[..|chunk|] == chunk && v.unread[|chunk|..] == rest && v.cuts[1..] == cuts;
    assert v.raw + chunk == raw;
    ReadOn(v, v.(raw := raw, unread := rest, cuts := cuts, tail := tail + |chunk|), len);
  }

  /** A turn that moves `piece` of the frame to the stdout parsed next. */
  lemma AbsorbGoes(v: View, piece: seq<byte>, acc: seq<byte>, rest: seq<byte>, len: nat)
    requires v.end.NotYet? && ParseEntry(v.acc).Incomplete? && v.id == Stdout && v.left > 0
    requires if rest == [] then v.raw == piece else v.raw == piece + rest
    requires piece != [] && |piece| == Min(v.left, |v.raw|)
    requires if v.acc == [] then acc == piece else acc == v.acc + piece
    ensures Read(v, len, false) == Read(v.(acc := acc, raw := rest, left := v.left - |piece|), len, false)
  {
    hide ParseEntry, ParseHeader, Read;
    assert v.raw[..|piece|] == piece && v.raw[|piece|..] == rest;
    assert v.acc + piece == acc;
    ReadOn(v, v.(acc := acc, raw := rest, left := v.left - |piece|), len);
  }

  /** The header is read and taken. */
  lemma FillsHeader(n: nat, unread: seq<byte>, cuts: seq<Cut>, len: nat)
    requires n < 0x1_0000_0000 && len >= HEADER_SIZE
    ensures Read(Fresh(StdoutHeader(n) + unread, [UpTo(5)] + cuts), len, false)
            == Read(View([], [], 5, Stdout, n, NotYet, [], unread, cuts), len, false)
  {
    var h := StdoutHeader(n);
    NothingParsed();
    hide ParseEntry, StdoutHeader, ParseHeader, Read;
    assert h[5..] == [];
    FillGoes(Fresh(h + unread, [UpTo(5)] + cuts), h, h, unread, cuts, 0, len);
    ReadOn(View([], h, 5, Stdout, 0, NotYet, [], unread, cuts), View([], [], 5, Stdout, n, NotYet, [], unread, cuts),
           len);
  }

  /** Then all of a frame but its last byte: the buffer is used to its end. */
  lemma FillsFrame(a: seq<byte>, rest: seq<byte>, cuts: seq<Cut>, len: nat)
    requires a != [] && len == |a| + 5
    ensures Read(View([], [], 5, Stdout, |a| + 1, NotYet, [], a + rest, [UpTo(|a|)] + cuts), len, false)
            == Read(View(a, [], len, Stdout, 1, NotYet, [], rest, cuts), len, false)
  {
    NothingParsed();
    hide ParseEntry, Read;
    var v2 := View([], [], 5, Stdout, |a| + 1, NotYet, [], a + rest, [UpTo(|a|)] + cuts);
    FillGoes(v2, a, a, rest, cuts, 5, len);
    var v3 := View([], a, len, Stdout, |a| + 1, NotYet, [], rest, cuts);
    AbsorbGoes(v3, a, a, [], len);
  }

  /** Then one byte more and four of the next header: no room for the fifth. */
  lemma FillsLast(a: seq<byte>, x: byte, h: seq<byte>, rest: seq<byte>)
    requires a != [] && ParseEntry(a).Incomplete? && ParseEntry(a + [x]).Incomplete? && |h| == 4
    ensures Read(View(a, [], |a| + 5, Stdout, 1, NotYet, [], [x] + h + rest, [UpTo(5)]), |a| + 5, false).1 == Full
  {
    hide ParseEntry, Read;
    var len := |a| + 5;
    assert [UpTo(5)] + [] == [UpTo(5)];
    var v4 := View(a, [], len, Stdout, 1, NotYet, [], [x] + h + rest, [UpTo(5)]);
    FillGoes(v4, [x] + h, [x] + h, rest, [], |a|, len);
    AbsorbGoes(View(a, [x] + h, len, Stdout, 1, NotYet, [], rest, []), [x], a + [x], h, len);
    ReadEnds(View(a + [x], h, len, Stdout, 0, NotYet, [], rest, []), len);
  }

  lemma SplitFills(entry: seq<byte>)
    requires ParseEntry(entry).Entry? && ParseEntry(entry).consumed == |entry|
    ensures var n := |entry| - 1;
            Read(Fresh(StdoutHeader(n) + entry[..n] + StdoutHeader(1) + entry[n..], [UpTo(5), UpTo(n - 1), UpTo(5)]),
                 |entry| + 3, false).1 == Full
  {
    hide ParseEntry, StdoutHeader, Read;
    var n := |entry| - 1;
    var h1, h2 := StdoutHeader(n), StdoutHeader(1);
    var a, x := entry[..n - 1], entry[n - 1];
    var rest := [x] + h2[..4] + (h2[4..] + entry[n..]);
    Unfinished(entry, n - 1);
    Unfinished(entry, n);
    assert a + [x] == entry[..n];
    FillsHeader(n, a + rest, [UpTo(n - 1)] + [UpTo(5)], n + 4);
    assert [UpTo(5)] + ([UpTo(n - 1)] + [UpTo(5)]) == [UpTo(5), UpTo(n - 1), UpTo(5)];
    FillsFrame(a, rest, [UpTo(5)], n + 4);
    FillsLast(a, x, h2[..4], h2[4..] + entry[n..]);
    FourPieces(h1, a, x, h2, entry[n..]);
  }

  lemma FourPieces(h1: seq<byte>, a: seq<byte>, x: byte, h2: seq<byte>, last: seq<byte>)
    requires |h2| == HEADER_SIZE
    ensures h1 + (a + ([x] + h2[..4] + (h2[4..] + last))) == h1 + (a + [x]) + h2 + last
  {
  }

  lemma ReadOn(v: View, v': View, len: nat)
    requires TakeTurn(v, len, false) == Goes(v')
    ensures Read(v, len, false) == Read(v', len, false)
  {
  }

  lemma ReadEnds(v: View, len: nat)
    requires TakeTurn(v, len, false).Returns?
    ensures Read(v, len, false).1 == TakeTurn(v, len, false).outcome
  {
  }

  lemma NothingParsed()
    ensures ParseEntry([]).Incomplete? && Deframe(Stdout, 0, []) == Stream([], [], Cut)
  {
  }
}
