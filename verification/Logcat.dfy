/**
 The in-place log reader (libadb/src/logcat.rs): one array holds the entry being
 assembled and the bytes not deframed yet, moved about with overlapping copies.
 */
module Logcats {
  import opened Prelude
  import opened LogFormat
  import opened LogStream

  datatype Filled = Ok | BufferFull | StaysPending | ReadBroke | ChannelEnded

  /** Bytes `from..to` copied to `dest`. */
  function Moved(s: seq<byte>, from: nat, to: nat, dest: nat): (r: seq<byte>)
    requires dest <= from <= to <= |s|
    ensures |r| == |s|
  {
    s[..dest] + s[from..to] + s[dest + (to - from)..]
  }

  lemma MovedAt(s: seq<byte>, from: nat, to: nat, dest: nat, i: nat)
    requires dest <= from <= to <= |s| && i < |s|
    ensures Moved(s, from, to, dest)[i] == if dest <= i < dest + (to - from) then s[i - dest + from] else s[i]
  {
  }

  /** The copy is there, and what lies wholly before or behind it is untouched. */
  lemma MovedSlice(s: seq<byte>, from: nat, to: nat, dest: nat, lo: nat, hi: nat)
    requires dest <= from <= to <= |s| && lo <= hi <= |s|
    ensures Moved(s, from, to, dest)[dest..dest + (to - from)] == s[from..to]
    ensures hi <= dest || dest + (to - from) <= lo ==> Moved(s, from, to, dest)[lo..hi] == s[lo..hi]
  {
  }

  /** Nothing, and then the first `n` bytes of a stretch. */
  lemma StartsWith(s: seq<byte>, a: nat, h: nat, n: nat, c: nat)
    requires a <= h <= h + n <= c <= |s|
    ensures s[h..h + n] == s[a..a] + s[h..c][..n] && s[h + n..c] == s[h..c][n..]
  {
  }

  /** A stretch that goes on where another ends. */
  lemma Joined(s: seq<byte>, a: nat, b: nat, n: nat, c: nat)
    requires a <= b <= b + n <= c <= |s|
    ensures s[a..b + n] == s[a..b] + s[b..c][..n] && s[b + n..c] == s[b..c][n..]
  {
  }

  /** The same, when it was copied there from further behind. */
  lemma JoinedMoved(s: seq<byte>, a: nat, b: nat, h: nat, n: nat, c: nat)
    requires a <= b <= h <= h + n <= c <= |s|
    ensures Moved(s, h, h + n, b)[a..b + n] == s[a..b] + s[h..c][..n]
    ensures Moved(s, h, h + n, b)[h + n..c] == s[h..c][n..]
  {
    var m := Moved(s, h, h + n, b);
    MovedSlice(s, h, h + n, b, a, b);
    MovedSlice(s, h, h + n, b, h + n, c);
    assert m[a..b + n] == m[a..b] + m[b..b + n];
    assert s[h..c][..n] == s[h..h + n] && s[h..c][n..] == s[h + n..c];
  }

  /** `n` bytes written at `from`: what lies before is untouched, and the stretch that ended there goes on with them. */
  lemma Appended(s: seq<byte>, now: seq<byte>, from: nat, bytes: seq<byte>, n: nat, a: nat, b: nat, h: nat)
    requires |s| == |now| && a <= b <= h <= from && from + n <= |s| && n <= |bytes|
    requires forall i :: 0 <= i < from ==> now[i] == s[i]
    requires forall i :: from <= i < from + n ==> now[i] == bytes[i - from]
    ensures now[a..b] == s[a..b] && now[h..from + n] == s[h..from] + bytes[..n]
  {
  }

  lemma KeepPart(stderr: seq<byte>, s: seq<byte>, h: nat, n: nat, c: nat, kept: nat)
    requires |stderr| <= STDERR_KEPT && h <= h + n <= c <= |s| && kept == Min(n, STDERR_KEPT - |stderr|)
    ensures stderr + s[h..h + kept] == Keep(stderr + s[h..c][..n]) && s[h + n..c] == s[h..c][n..]
  {
    var all := stderr + s[h..c][..n];
    assert all[..|stderr| + kept] == stderr + s[h..c][..n][..kept];
    assert s[h..c][..n] == s[h..h + n] && s[h..h + n][..kept] == s[h..h + kept];
  }

  /** `fill`, once there is room or plainly none. */
  lemma FillAfterRoom(v: View, len: nat, closes: bool)
    requires Sane(v, len)
    ensures var w := v.(tail := if v.tail == len then |v.acc| + |v.raw| else v.tail);
            Fill(v, len, closes) ==
              if w.tail >= len then Returns(w, Full)
              else if w.cuts == [] || (w.cuts[0].UpTo? && w.unread == [] && !closes) then Returns(w, Dropped)
              else if w.cuts[0].Breaks? then Returns(w.(cuts := w.cuts[1..]), Broke)
              else if w.unread == [] then Goes(w.(cuts := w.cuts[1..], end := Closed))
              else
                var n := Min(w.cuts[0].n, Min(len - w.tail, |w.unread|));
                Goes(w.(tail := w.tail + n, raw := w.raw + w.unread[..n], unread := w.unread[n..], cuts := w.cuts[1..]))
  {
  }

  /** `buf[accStart..accEnd]` is stdout not parsed yet, `buf[head..tail]` bytes read and not deframed. */
  class Logcat {
    const buf: array<byte>
    var accStart: nat
    var accEnd: nat
    var head: nat
    var tail: nat
    var frameId: FrameId
    var frameLeft: nat
    var end: End
    var stderr: seq<byte>

    // The channel: what it will deliver, how its reads end, and whether it closes after that.
    var unread: seq<byte>
    var cuts: seq<Cut>
    const closes: bool

    ghost predicate Valid()
      reads this
    {
      && accStart <= accEnd <= head <= tail <= buf.Length
      && HEADER_SIZE <= buf.Length && |stderr| <= STDERR_KEPT
    }

    ghost function Value(): (v: View)
      reads this, buf
      requires Valid()
      ensures Sane(v, buf.Length)
    {
      View(buf[accStart..accEnd], buf[head..tail], tail, frameId, frameLeft, end, stderr, unread, cuts)
    }

    constructor (buffer: array<byte>, stream: seq<byte>, firstReads: seq<Cut>, ends: bool)
      requires buffer.Length >= HEADER_SIZE
      ensures Valid() && buf == buffer && closes == ends && Value() == Fresh(stream, firstReads)
    {
      buf := buffer;
      accStart, accEnd, head, tail := 0, 0, 0, 0;
      frameId, frameLeft, end, stderr := Stdout, 0, NotYet, [];
      unread, cuts, closes := stream, firstReads, ends;
    }

    /** `copy_within` toward the front; source and target may overlap. */
    method Shift(from: nat, to: nat, dest: nat)
      requires dest <= from <= to <= buf.Length
      modifies buf
      ensures buf[..] == Moved(old(buf[..]), from, to, dest)
    {
      ghost var s := buf[..];
      var n := 0;
      while n < to - from
        invariant n <= to - from
        invariant forall i :: dest <= i < dest + n ==> buf[i] == s[i - dest + from]
        invariant forall i :: 0 <= i < buf.Length && !(dest <= i < dest + n) ==> buf[i] == s[i]
      {
        buf[dest + n] := buf[from + n];
        n := n + 1;
      }
      hide Moved;
      forall i | 0 <= i < buf.Length ensures buf[i] == Moved(s, from, to, dest)[i] { MovedAt(s, from, to, dest, i); }
    }

    /** Both parts move to the front of the buffer, one behind the other. */
    method Compact()
      requires Valid()
      modifies this`accStart, this`accEnd, this`head, this`tail, buf
      ensures Valid()
      ensures var v := old(Value());
              Value() == v.(tail := |v.acc| + |v.raw|)
    {
      CompactAcc();
      if accEnd < head {
        ghost var s := buf[..];
        MovedSlice(s, head, tail, accEnd, accStart, accEnd);
        Shift(head, tail, accEnd);
        tail := tail - (head - accEnd);
        head := accEnd;
        assert buf[accStart..accEnd] == buf[..][accStart..accEnd] && buf[head..tail] == buf[..][head..tail];
      }
    }

    method CompactAcc()
      requires Valid()
      modifies this`accStart, this`accEnd, buf
      ensures Valid() && Value() == old(Value()) && accStart == 0
    {
      if accStart > 0 {
        ghost var s := buf[..];
        MovedSlice(s, accStart, accEnd, 0, head, tail);
        Shift(accStart, accEnd, 0);
        accEnd := accEnd - accStart;
        accStart := 0;
        assert buf[0..accEnd] == buf[..][0..accEnd] && buf[head..tail] == buf[..][head..tail];
      }
    }

    /** Copy what one channel read delivers behind `tail`. */
    method Deliver(n: nat)
      requires Valid() && n <= |unread| && tail + n <= buf.Length
      modifies this`tail, this`unread, buf
      ensures Valid()
      ensures var v := old(Value());
              Value() == v.(tail := v.tail + n, raw := v.raw + v.unread[..n], unread := v.unread[n..])
    {
      ghost var s := buf[..];
      var from, bytes := tail, unread;
      forall i | from <= i < from + n { buf[i] := bytes[i - from]; }
      Appended(s, buf[..], tail, unread, n, accStart, accEnd, head);
      assert buf[accStart..accEnd] == buf[..][accStart..accEnd] && buf[head..tail + n] == buf[..][head..tail + n];
      assert s[accStart..accEnd] == old(Value()).acc && s[head..tail] == old(Value()).raw;
      tail := tail + n;
      unread := unread[n..];
    }

    /** Room behind `tail`, made by compacting if there is none. */
    method MakeRoom() returns (room: bool)
      requires Valid()
      modifies this`accStart, this`accEnd, this`head, this`tail, buf
      ensures Valid() && room == (tail < buf.Length)
      ensures var v := old(Value());
              Value() == v.(tail := if v.tail == buf.Length then |v.acc| + |v.raw| else v.tail)
    {
      if tail == buf.Length { Compact(); }
      room := tail < buf.Length;
    }

    method FillBuffer() returns (r: Filled)
      requires Valid() && end.NotYet?
      modifies this`accStart, this`accEnd, this`head, this`tail, this`unread, this`cuts, this`end, buf
      ensures Valid()
      ensures var turn := Fill(old(Value()), buf.Length, closes);
              match r
              case Ok => turn == Goes(Value())
              case ChannelEnded => turn == Goes(Value().(end := Closed)) && end.NotYet?
              case BufferFull => turn == Returns(Value(), Full)
              case ReadBroke => turn == Returns(Value(), Broke)
              case StaysPending => turn == Returns(Value(), Dropped)
    {
      hide Fill;
      ghost var v := Value();
      var room := MakeRoom();
      ghost var w := Value();
      FillAfterRoom(v, buf.Length, closes);
      if !room { return BufferFull; }
      if cuts == [] || (cuts[0].UpTo? && unread == [] && !closes) { return StaysPending; }
      r := ReadOnce();
    }

    /** One channel read into the room behind `tail`. */
    method ReadOnce() returns (r: Filled)
      requires Valid() && tail < buf.Length && cuts != [] && (cuts[0].Breaks? || unread != [] || closes)
      modifies this`tail, this`unread, this`cuts, buf
      ensures Valid()
      ensures var v := old(Value());
              if v.cuts[0].Breaks? then r.ReadBroke? && Value() == v.(cuts := v.cuts[1..])
              else if v.unread == [] then r.ChannelEnded? && Value() == v.(cuts := v.cuts[1..])
              else
                var n := Min(v.cuts[0].n, Min(buf.Length - v.tail, |v.unread|));
                && r.Ok?
                && Value() == v.(tail := v.tail + n, raw := v.raw + v.unread[..n], unread := v.unread[n..],
                                 cuts := v.cuts[1..])
    {
      var cut := cuts[0];
      cuts := cuts[1..];
      if cut.Breaks? { return ReadBroke; }
      if unread == [] { return ChannelEnded; }
      Deliver(Min(cut.n, Min(buf.Length - tail, |unread|)));
      r := Filled.Ok;
    }

    method TakeEntry() returns (parsed: Parsed)
      requires Valid()
      modifies this`accStart
      ensures Valid() && parsed == ParseEntry(old(Value()).acc)
      ensures var v := old(Value());
              Value() == if parsed.Entry? then v.(acc := v.acc[parsed.consumed..]) else v
    {
      parsed := ParseEntry(buf[accStart..accEnd]);
      if parsed.Entry? { accStart := accStart + parsed.consumed; }
    }

    /** Bring the first `n` bytes at `head` to the end of the entry being assembled, unless they are there. */
    method PullUp(n: nat)
      requires Valid() && accStart < accEnd && 0 < n <= tail - head
      modifies buf
      ensures buf[accStart..accEnd + n] == old(Value()).acc + old(Value()).raw[..n]
      ensures buf[head + n..tail] == old(Value()).raw[n..]
    {
      hide Moved;
      ghost var s := buf[..];
      assert s[accStart..accEnd] == buf[accStart..accEnd] && s[head..tail] == buf[head..tail];
      if accEnd < head {
        JoinedMoved(s, accStart, accEnd, head, n, tail);
        Shift(head, head + n, accEnd);
      } else {
        Joined(s, accStart, accEnd, n, tail);
      }
      assert buf[accStart..accEnd + n] == buf[..][accStart..accEnd + n]
             && buf[head + n..tail] == buf[..][head + n..tail];
    }

    /** `n` bytes of stdout join the entry being assembled; an empty one starts where they are. */
    method AbsorbStdout(n: nat)
      requires Valid() && 0 < n <= tail - head
      modifies this`accStart, this`accEnd, this`head, buf
      ensures Valid()
      ensures var v := old(Value()); Value() == v.(acc := v.acc + v.raw[..n], raw := v.raw[n..])
    {
      if accStart == accEnd {
        StartsWith(buf[..], accStart, head, n, tail);
        assert buf[..][head..tail] == buf[head..tail] && buf[..][accStart..accStart] == buf[accStart..accEnd];
        accStart := head;
        accEnd := head;
      } else {
        PullUp(n);
      }
      accEnd := accEnd + n;
      head := head + n;
    }

    /** Of `n` bytes of stderr the first ones are kept, as long as there is room. */
    method AbsorbStderr(n: nat)
      requires Valid() && 0 < n <= tail - head
      modifies this`head, this`stderr
      ensures Valid()
      ensures var v := old(Value()); Value() == v.(stderr := Keep(v.stderr + v.raw[..n]), raw := v.raw[n..])
    {
      var kept := Min(n, STDERR_KEPT - |stderr|);
      KeepPart(stderr, buf[..], head, n, tail, kept);
      assert buf[..][head..tail] == buf[head..tail];
      stderr := stderr + buf[head..head + kept];
      head := head + n;
    }

    /** The part of the current frame that is in the buffer goes to the entry being assembled, or to stderr. */
    method AbsorbFrame()
      requires Valid() && frameLeft > 0 && head < tail && frameId != Exit
      modifies this`accStart, this`accEnd, this`head, this`frameLeft, this`stderr, buf
      ensures Valid() && Value() == Absorb(old(Value()))
    {
      hide Keep;
      var n := Min(frameLeft, tail - head);
      if frameId == Stdout { AbsorbStdout(n); } else { AbsorbStderr(n); }
      frameLeft := frameLeft - n;
    }

    /** The end of the stream, once it has come and no entry is left. */
    method Verdict() returns (r: Option<Outcome>)
      requires Valid() && ParseEntry(Value().acc).Incomplete?
      ensures Answer(Value()) == if r.None? then None else Some((Value(), r.value))
      ensures r.None? <==> end.NotYet?
    {
      match end {
        case NotYet => r := None;
        case ExitedWith(code) =>
          if code != 0 { return Some(Fails(LogcatExited(code, stderr))); }
          r := Some(Fails(if accStart < accEnd then TruncatedEntry else ChannelClosed));
        case Closed => r := Some(Fails(ClosedWithoutExit));
      }
    }

    /** Take the next frame's header off the buffer. */
    method TakeHeader() returns (header: Header)
      requires Valid() && tail - head >= HEADER_SIZE
      modifies this`head, this`frameId, this`frameLeft
      ensures Valid() && header == ParseHeader(old(Value()).raw)
      ensures var v := old(Value());
              Value() == if header.Frame?
                         then v.(raw := v.raw[HEADER_SIZE..], id := header.id, left := header.len) else v
    {
      ghost var raw := buf[head..tail];
      header := ParseHeader(buf[head..tail]);
      if header.Frame? {
        assert buf[head + HEADER_SIZE..tail] == raw[HEADER_SIZE..];
        head := head + HEADER_SIZE;
        frameId := header.id;
        frameLeft := header.len;
      }
    }

    /** One turn with no entry to return and no end in sight. */
    method GoOn() returns (r: Option<Outcome>)
      requires Valid() && Answer(Value()).None?
      modifies this`accStart, this`accEnd, this`head, this`tail, this`frameId, this`frameLeft, this`end, this`stderr,
               this`unread, this`cuts, buf
      ensures Valid()
      ensures TakeTurn(old(Value()), buf.Length, closes) == if r.None? then Goes(Value()) else Returns(Value(), r.value)
    {
      hide ParseEntry, ParseHeader, Keep;
      r := None;
      if frameLeft > 0 && head < tail {
        if frameId == Exit {
          end := ExitedWith(buf[head]);
        } else {
          AbsorbFrame();
        }
      } else if frameLeft == 0 && tail - head >= HEADER_SIZE {
        var header := TakeHeader();
        match header {
          case EmptyExit => r := Some(Fails(ShortExitPayload));
          case WrongId(byte) => r := Some(Fails(UnexpectedFrame(byte)));
          case Frame(_, _) =>
        }
      } else {
        var filled := FillBuffer();
        match filled {
          case Ok =>
          case ChannelEnded => end := Closed;
          case BufferFull => r := Some(Full);
          case ReadBroke => r := Some(Broke);
          case StaysPending => r := Some(Dropped);
        }
      }
    }

    /**
     Read the next entry. What the call does is `Read` of the reader's value: by
     `ReadTells` the next entry of the whole stream's parse, or its verdict.
     */
    method ReadEntry() returns (outcome: Outcome)
      requires Valid()
      modifies this`accStart, this`accEnd, this`head, this`tail, this`frameId, this`frameLeft, this`end, this`stderr,
               this`unread, this`cuts, buf
      ensures Valid() && (Value(), outcome) == Read(old(Value()), buf.Length, closes)
    {
      while true
        invariant Valid() && Read(Value(), buf.Length, closes) == Read(old(Value()), buf.Length, closes)
        decreases |cuts|, if end.NotYet? then 1 else 0, tail - head
      {
        ghost var v := Value();
        var parsed := TakeEntry();
        if parsed.Entry? { return Got(parsed.entry); }
        if parsed.Invalid? { return Fails(InvalidHeader); }
        var verdict := Verdict();
        if verdict.Some? { return verdict.value; }
        var r := GoOn();
        TurnShrinks(v, buf.Length, closes);
        if r.Some? { return r.value; }
      }
    }
  }

  lemma Regroup(a: seq<LogEntry>, e: LogEntry, b: seq<LogEntry>)
    ensures a + ([e] + b) == a + [e] + b && |[e] + b| == |b| + 1
  {
  }

  /**
   `dump`: read until a call fails. A clean end gives all entries of the whole
   stream, in order; any other failure drops what was read, and is the stream's
   verdict unless the call itself was cut short.
   */
  method Dump(logcat: Logcat) returns (r: Result<seq<LogEntry>, Outcome>)
    requires logcat.Valid()
    modifies logcat, logcat.buf
    ensures var story := old(StoryOf(logcat.Value(), logcat.closes));
            match r
            case Ok(entries) => entries == story.entries && story.verdict == ChannelClosed
            case Err(Fails(verdict)) => verdict == story.verdict != ChannelClosed
            case Err(Got(_)) => false
            case Err(_) => true
    ensures LOGGER_ENTRY_MAX_LEN + 4 <= logcat.buf.Length ==> r != Err(Full)
  {
    hide StoryOf, Read;
    ghost var story := StoryOf(logcat.Value(), logcat.closes);
    var entries := [];
    while true
      invariant logcat.Valid()
      invariant var now := StoryOf(logcat.Value(), logcat.closes);
                entries + now.entries == story.entries && now.verdict == story.verdict
      decreases |StoryOf(logcat.Value(), logcat.closes).entries|
    {
      ghost var v := logcat.Value();
      ghost var before := entries;
      ReadTells(v, logcat.buf.Length, logcat.closes);
      if LOGGER_ENTRY_MAX_LEN + 4 <= logcat.buf.Length { ReadHasRoom(v, logcat.buf.Length, logcat.closes); }
      var end := logcat.ReadEntry();
      if !end.Got? {
        NoneLeft(entries);
        return if end == Fails(ChannelClosed) then Result.Ok(entries) else Err(end);
      }
      entries := entries + [end.entry];
      Regroup(before, end.entry, StoryOf(logcat.Value(), logcat.closes).entries);
    }
  }

  /** A turn that goes on has used up a read, found the end or shortened what is buffered. */
  lemma TurnShrinks(v: View, len: nat, closes: bool)
    requires Answer(v).None?
    ensures var turn := TakeTurn(v, len, closes);
            turn.Goes? ==>
              || |turn.view.cuts| < |v.cuts|
              || (turn.view.cuts == v.cuts && v.end.NotYet? && !turn.view.end.NotYet?)
              || (turn.view.cuts == v.cuts && turn.view.end == v.end && |turn.view.raw| < |v.raw|)
  {
  }
}
