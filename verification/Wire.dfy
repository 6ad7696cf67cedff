/**
 Packets on the byte stream (libadb/src/base/wire.rs, the codec of
 libadb/src/base/protocol/packet.rs): whatever a transport does to the writes,
 the device reads whole packets, and at most one cut packet behind them.
 */
module Wire {
  import opened Prelude
  import opened ChannelTables

  const MESSAGE_SIZE := 24

  // ---- the codec ----

  function Code(c: Command): (n: nat)
    ensures n < 0x1_0000_0000
  {
    match c
    case Sync => 0x434e_5953
    case Connect => 0x4e58_4e43
    case OpenCmd => 0x4e45_504f
    case Ready => 0x5941_4b4f
    case Close => 0x4553_4c43
    case Write => 0x4554_5257
    case Auth => 0x4854_5541
    case StartTls => 0x534c_5453
  }

  function Magic(c: Command): (n: nat)
    ensures n < 0x1_0000_0000
  {
    0xFFFF_FFFF - Code(c)
  }

  function CommandOf(n: nat): (c: Option<Command>)
    ensures c.Some? ==> Code(c.value) == n
    ensures c.None? ==> forall d: Command :: Code(d) != n
  {
    if n == Code(Sync) then Some(Sync) else if n == Code(Connect) then Some(Connect)
    else if n == Code(OpenCmd) then Some(OpenCmd) else if n == Code(Ready) then Some(Ready)
    else if n == Code(Close) then Some(Close) else if n == Code(Write) then Some(Write)
    else if n == Code(Auth) then Some(Auth) else if n == Code(StartTls) then Some(StartTls)
    else None
  }

  datatype Checksum = Compute | Skip

  /** The sum of the bytes. */
  function ByteTotal(payload: seq<byte>): nat {
    if payload == [] then 0
    else var last: int := payload[|payload| - 1]; ByteTotal(payload[..|payload| - 1]) + last
  }

  /** The 32 bits of it that a header carries. */
  function PayloadSum(payload: seq<byte>): (n: nat)
    ensures n < 0x1_0000_0000
  {
    ByteTotal(payload) % 0x1_0000_0000
  }

  /** Each step keeps the low 32 bits. */
  lemma SumOn(total: nat, b: nat)
    ensures (total % 0x1_0000_0000 + b) % 0x1_0000_0000 == (total + b) % 0x1_0000_0000
  {
  }

  /** `payload_checksum`: a wrapping sum gives the low 32 bits of the byte total. */
  method PayloadChecksum(payload: seq<byte>) returns (sum: nat)
    ensures sum == ByteTotal(payload) % 0x1_0000_0000
  {
    sum := 0;
    for i := 0 to |payload|
      invariant sum == ByteTotal(payload[..i]) % 0x1_0000_0000
    {
      assert payload[..i + 1][..i] == payload[..i];
      var b: int := payload[i];
      SumOn(ByteTotal(payload[..i]), b);
      sum := (sum + b) % 0x1_0000_0000;
    }
    assert payload[..|payload|] == payload;
  }

  lemma {:induction false} TotalBounded(payload: seq<byte>)
    ensures ByteTotal(payload) <= 255 * |payload|
  {
    if payload != [] { TotalBounded(payload[..|payload| - 1]); }
  }

  function CheckOf(mode: Checksum, payload: seq<byte>): (n: nat)
    ensures n < 0x1_0000_0000
  {
    if mode == Skip then 0 else PayloadSum(payload)
  }

  predicate Sendable(p: Packet) { p.arg0 < 0x1_0000_0000 && p.arg1 < 0x1_0000_0000 && |p.data| <= MAX_PAYLOAD }

  function Header(p: Packet, mode: Checksum): (h: seq<byte>)
    requires Sendable(p)
    ensures |h| == MESSAGE_SIZE
  {
    U32ToLe(Code(p.command)) + U32ToLe(p.arg0) + U32ToLe(p.arg1) + U32ToLe(|p.data|)
    + U32ToLe(CheckOf(mode, p.data)) + U32ToLe(Magic(p.command))
  }

  function Encode(p: Packet, mode: Checksum): seq<byte>
    requires Sendable(p)
  {
    Header(p, mode) + p.data
  }

  datatype ProtocolError = InvalidCommand(code: nat) | InvalidMagic | PayloadTooLarge | InvalidChecksum

  datatype Decoded = NeedMore | Bad(error: ProtocolError) | Whole(pkt: Packet, consumed: nat)

  /** `Packet::decode`. */
  function Decode(buf: seq<byte>, maxPayload: nat): (r: Decoded)
    ensures r.Whole? ==> MESSAGE_SIZE <= r.consumed <= |buf|
  {
    if |buf| < MESSAGE_SIZE then NeedMore
    else
      match CommandOf(U32Le(buf[0..4]))
      case None => Bad(InvalidCommand(U32Le(buf[0..4])))
      case Some(command) =>
        var len := U32Le(buf[12..16]);
        if U32Le(buf[20..24]) != Magic(command) then Bad(InvalidMagic)
        else if len > Min(maxPayload, MAX_PAYLOAD) then Bad(PayloadTooLarge)
        else if |buf| < MESSAGE_SIZE + len then NeedMore
        else
          var data := buf[MESSAGE_SIZE..MESSAGE_SIZE + len];
          var check := U32Le(buf[16..20]);
          if check != 0 && PayloadSum(data) != check then Bad(InvalidChecksum)
          else Whole(Packet(command, U32Le(buf[4..8]), U32Le(buf[8..12]), data), MESSAGE_SIZE + len)
  }

  /** The fields of a header, read back. */
  lemma HeaderFields(p: Packet, mode: Checksum, rest: seq<byte>)
    requires Sendable(p)
    ensures var b := Header(p, mode) + rest;
            && U32Le(b[0..4]) == Code(p.command) && U32Le(b[4..8]) == p.arg0 && U32Le(b[8..12]) == p.arg1
            && U32Le(b[12..16]) == |p.data| && U32Le(b[16..20]) == CheckOf(mode, p.data)
            && U32Le(b[20..24]) == Magic(p.command) && b[MESSAGE_SIZE..] == rest
  {
    hide U32ToLe, U32Le, PayloadSum, Code, Magic;
    var b := Header(p, mode) + rest;
    assert b[0..4] == U32ToLe(Code(p.command)) && b[4..8] == U32ToLe(p.arg0) && b[8..12] == U32ToLe(p.arg1);
    assert b[12..16] == U32ToLe(|p.data|) && b[20..24] == U32ToLe(Magic(p.command));
    assert b[16..20] == U32ToLe(CheckOf(mode, p.data));
  }

  lemma CodesDiffer(c: Command)
    ensures CommandOf(Code(c)) == Some(c)
  {
  }

  /** A packet on the stream decodes to itself, whatever follows it. */
  lemma DecodeInvertsEncode(p: Packet, mode: Checksum, rest: seq<byte>, maxPayload: nat)
    requires Sendable(p) && |p.data| <= maxPayload
    ensures Decode(Encode(p, mode) + rest, maxPayload) == Whole(p, |Encode(p, mode)|)
  {
    hide Header, PayloadSum, U32Le, Code, CommandOf;
    HeaderFields(p, mode, p.data + rest);
    CodesDiffer(p.command);
    var b := Header(p, mode) + (p.data + rest);
    assert Encode(p, mode) + rest == b;
    assert b[MESSAGE_SIZE..MESSAGE_SIZE + |p.data|] == (p.data + rest)[..|p.data|] == p.data;
  }

  /** A packet cut anywhere decodes to nothing: the device waits for the rest. */
  lemma CutDecodesToNothing(p: Packet, mode: Checksum, n: nat, maxPayload: nat)
    requires Sendable(p) && |p.data| <= maxPayload && n < |Encode(p, mode)|
    ensures Decode(Encode(p, mode)[..n], maxPayload) == NeedMore
  {
    hide Header, PayloadSum, U32Le, Code, CommandOf;
    if n >= MESSAGE_SIZE {
      HeaderFields(p, mode, p.data[..n - MESSAGE_SIZE]);
      CodesDiffer(p.command);
      assert Encode(p, mode)[..n] == Header(p, mode) + p.data[..n - MESSAGE_SIZE];
    }
  }

  /**
   What the checksum catches: a payload that arrives as another of the same
   length is refused exactly when its byte total differs, unless the header
   says 0, as it does without checksums and for a payload of zeros.
   */
  lemma ChecksumCatches(p: Packet, mode: Checksum, data: seq<byte>, rest: seq<byte>, maxPayload: nat)
    requires Sendable(p) && |data| == |p.data| <= maxPayload
    ensures Decode(Header(p, mode) + data + rest, maxPayload) ==
              if mode == Compute && ByteTotal(p.data) != 0 && ByteTotal(data) != ByteTotal(p.data)
              then Bad(InvalidChecksum)
              else Whole(p.(data := data), MESSAGE_SIZE + |data|)
  {
    TotalBounded(data);
    TotalBounded(p.data);
    assert PayloadSum(data) == ByteTotal(data) && PayloadSum(p.data) == ByteTotal(p.data);
    hide Header, PayloadSum, U32Le, Code, CommandOf, ByteTotal;
    HeaderFields(p, mode, data + rest);
    CodesDiffer(p.command);
    var b := Header(p, mode) + (data + rest);
    assert Header(p, mode) + data + rest == b;
    assert b[MESSAGE_SIZE..MESSAGE_SIZE + |data|] == (data + rest)[..|data|] == data;
  }

  // ---- one write ----

  /**
   What the transport does with one write or flush: takes a prefix, fails, or is still
   pending when the send is dropped.
   */
  datatype Response = Takes(n: nat) | Refuses(gone: bool) | Abandoned

  datatype Result = Done | UnexpectedEof | Io(gone: bool) | Dropped | Desynchronized | TooLarge

  predicate ConnectionGone(r: Result) { r.Io? && r.gone }

  /** `write_all`: how many bytes get out, and how it ends. With no response left the write stays pending. */
  function WriteAll(len: nat, script: seq<Response>): (r: (nat, Result, seq<Response>))
    ensures r.0 <= len && (r.1 == Done <==> r.0 == len) && r.1 != Desynchronized && r.1 != TooLarge
    decreases |script|
  {
    if len == 0 then (0, Done, script)
    else if script == [] then (0, Dropped, [])
    else
      match script[0]
      case Takes(n) =>
        if n == 0 then (0, UnexpectedEof, script[1..])
        else
          var k := Min(n, len);
          var (m, result, rest) := WriteAll(len - k, script[1..]);
          (k + m, result, rest)
      case Refuses(gone) => (0, Io(gone), script[1..])
      case Abandoned => (0, Dropped, script[1..])
  }

  function Flush(script: seq<Response>): (Result, seq<Response>) {
    if script == [] then (Dropped, [])
    else
      match script[0]
      case Takes(_) => (Done, script[1..])
      case Refuses(gone) => (Io(gone), script[1..])
      case Abandoned => (Dropped, script[1..])
  }

  /** `write_frame`: header, payload, flush. */
  function WriteFrame(payload: nat, script: seq<Response>): (r: (nat, Result, seq<Response>))
    ensures r.0 <= MESSAGE_SIZE + payload && (r.1 == Done ==> r.0 == MESSAGE_SIZE + payload)
    ensures r.1 != Desynchronized && r.1 != TooLarge
  {
    var (h, headResult, rest) := WriteAll(MESSAGE_SIZE, script);
    if headResult != Done then (h, headResult, rest)
    else
      var (n, result, rest') := WriteAll(payload, rest);
      if result != Done then (h + n, result, rest') else (h + n, Flush(rest').0, Flush(rest').1)
  }

  // ---- the stream over many sends ----

  /**
   What got out, and the flag. History: the packets out whole, the part of a
   packet behind them, and whether a failure said the device is gone.
   */
  datatype Link = Link(out: seq<byte>, desync: bool, script: seq<Response>, whole: seq<Packet>, cut: seq<byte>,
                       gone: bool)

  /** `send_pkt`, `send_raw`, `send_open`: the flag, the size, then the frame, armed. */
  function Send(l: Link, p: Packet, mode: Checksum): (r: (Link, Result))
    requires p.arg0 < 0x1_0000_0000 && p.arg1 < 0x1_0000_0000
  {
    if l.desync then (l, Desynchronized)
    else if |p.data| > MAX_PAYLOAD then (l, TooLarge)
    else
      var (n, result, rest) := WriteFrame(|p.data|, l.script);
      var bytes := Encode(p, mode);
      (Link(l.out + bytes[..n],
            result != Done && !ConnectionGone(result),
            rest,
            if n == |bytes| then l.whole + [p] else l.whole,
            if n == |bytes| then l.cut else bytes[..n],
            l.gone || ConnectionGone(result)),
       result)
  }

  ghost function Flat(packets: seq<Packet>, mode: Checksum): seq<byte>
    requires forall p <- packets :: Sendable(p)
  {
    if packets == [] then [] else Flat(packets[..|packets| - 1], mode) + Encode(packets[|packets| - 1], mode)
  }

  lemma FlatPush(packets: seq<Packet>, p: Packet, mode: Checksum)
    requires Sendable(p) && forall q <- packets :: Sendable(q)
    ensures Flat(packets + [p], mode) == Flat(packets, mode) + Encode(p, mode)
  {
    assert (packets + [p])[..|packets|] == packets;
  }

  ghost predicate CutOf(cut: seq<byte>, mode: Checksum) {
    exists p: Packet, n :: Sendable(p) && 0 <= n < |Encode(p, mode)| && cut == Encode(p, mode)[..n]
  }

  /** Whole packets, then at most one cut packet, and then the flag is up. */
  ghost predicate Framed(l: Link, mode: Checksum) {
    l.gone ||
    (&& (forall p <- l.whole :: Sendable(p))
     && l.out == Flat(l.whole, mode) + l.cut
     && (l.cut != [] ==> l.desync && CutOf(l.cut, mode)))
  }

  /** Every send keeps the framing; with the flag up it writes nothing. */
  lemma SendKeepsFraming(l: Link, p: Packet, mode: Checksum)
    requires Framed(l, mode) && p.arg0 < 0x1_0000_0000 && p.arg1 < 0x1_0000_0000
    ensures Framed(Send(l, p, mode).0, mode)
    ensures l.desync ==> Send(l, p, mode).0 == l && Send(l, p, mode).1 == Desynchronized
    ensures Send(l, p, mode).1 == Done ==> Send(l, p, mode).0.whole == l.whole + [p] && !Send(l, p, mode).0.desync
    ensures Send(l, p, mode).0.whole == l.whole || Send(l, p, mode).0.whole == l.whole + [p]
  {
    hide Encode, WriteFrame;
    if |p.data| <= MAX_PAYLOAD { EncodeLength(p, mode); }
    if !l.desync && |p.data| <= MAX_PAYLOAD && !l.gone {
      var (n, result, rest) := WriteFrame(|p.data|, l.script);
      var bytes := Encode(p, mode);
      FlatPush(l.whole, p, mode);
      assert l.cut == [];
      if n == |bytes| {
        assert bytes[..n] == bytes;
        assert Flat(l.whole, mode) + l.cut + bytes == Flat(l.whole, mode) + bytes + l.cut;
      } else {
        assert Flat(l.whole, mode) + l.cut + bytes[..n] == Flat(l.whole, mode) + bytes[..n];
        assert CutOf(bytes[..n], mode);
      }
    }
  }

  lemma EncodeLength(p: Packet, mode: Checksum)
    requires Sendable(p)
    ensures |Encode(p, mode)| == MESSAGE_SIZE + |p.data|
  {
  }

  ghost function SendAll(l: Link, packets: seq<Packet>, mode: Checksum): Link
    requires forall p <- packets :: p.arg0 < 0x1_0000_0000 && p.arg1 < 0x1_0000_0000
  {
    if packets == [] then l else Send(SendAll(l, packets[..|packets| - 1], mode), packets[|packets| - 1], mode).0
  }

  lemma {:induction false} SendAllFramed(l: Link, packets: seq<Packet>, mode: Checksum)
    requires forall p <- packets :: p.arg0 < 0x1_0000_0000 && p.arg1 < 0x1_0000_0000
    requires Framed(l, mode)
    ensures Framed(SendAll(l, packets, mode), mode)
  {
    hide Framed, Send;
    if packets != [] {
      SendAllFramed(l, packets[..|packets| - 1], mode);
      SendKeepsFraming(SendAll(l, packets[..|packets| - 1], mode), packets[|packets| - 1], mode);
    }
  }

  /** The packets a device reads off a byte stream, and what it is left with. */
  ghost function DecodeAll(bytes: seq<byte>, maxPayload: nat): (seq<Packet>, seq<byte>)
    decreases |bytes|
  {
    match Decode(bytes, maxPayload)
    case Whole(p, n) => var (more, rest) := DecodeAll(bytes[n..], maxPayload); ([p] + more, rest)
    case _ => ([], bytes)
  }

  lemma {:induction false} DecodeFlat(packets: seq<Packet>, mode: Checksum, tail: seq<byte>, maxPayload: nat)
    requires forall p <- packets :: Sendable(p) && |p.data| <= maxPayload
    requires Decode(tail, maxPayload) == NeedMore
    ensures DecodeAll(Flat(packets, mode) + tail, maxPayload) == (packets, tail)
    decreases |packets|
  {
    hide Encode, Decode;
    if packets == [] {
      assert [] + tail == tail;
    } else {
      var first, others := packets[0], packets[1..];
      FlatFirst(packets, mode);
      assert packets == [first] + others;
      var rest := Flat(others, mode) + tail;
      assert Flat(packets, mode) + tail == Encode(first, mode) + rest;
      DecodeInvertsEncode(first, mode, rest, maxPayload);
      assert (Encode(first, mode) + rest)[|Encode(first, mode)|..] == rest;
      DecodeFlat(others, mode, tail, maxPayload);
    }
  }

  lemma {:induction false} FlatFirst(packets: seq<Packet>, mode: Checksum)
    requires packets != [] && forall p <- packets :: Sendable(p)
    ensures Flat(packets, mode) == Encode(packets[0], mode) + Flat(packets[1..], mode)
  {
    hide Encode;
    var n := |packets| - 1;
    if n > 0 {
      FlatFirst(packets[..n], mode);
      assert packets[..n][1..] == packets[1..][..n - 1];
      Regroup(Encode(packets[0], mode), Flat(packets[1..][..n - 1], mode), Encode(packets[n], mode));
    }
  }

  lemma Regroup(a: seq<byte>, b: seq<byte>, c: seq<byte>)
    ensures a + b + c == a + (b + c)
  {
  }

  /**
   For every transport and every list of sends, unless a failure said the device
   is gone: what a device reads are exactly the packets that got out whole, in
   order; it is left with at most one cut packet, and then the flag is up.
   */
  lemma DeviceReadsWholePackets(script: seq<Response>, packets: seq<Packet>, mode: Checksum)
    requires forall p <- packets :: p.arg0 < 0x1_0000_0000 && p.arg1 < 0x1_0000_0000
    requires !SendAll(Link([], false, script, [], [], false), packets, mode).gone
    ensures var end := SendAll(Link([], false, script, [], [], false), packets, mode);
            && DecodeAll(end.out, MAX_PAYLOAD) == (end.whole, end.cut)
            && (end.cut != [] ==> end.desync)
  {
    hide Send, SendAll, Decode, Encode, Flat;
    var start := Link([], false, script, [], [], false);
    assert Framed(start, mode) by { FlatEmpty(mode); }
    SendAllFramed(start, packets, mode);
    var end := SendAll(start, packets, mode);
    if end.cut != [] {
      var p: Packet, n :| Sendable(p) && 0 <= n < |Encode(p, mode)| && end.cut == Encode(p, mode)[..n];
      CutDecodesToNothing(p, mode, n, MAX_PAYLOAD);
    } else {
      EmptyNeedsMore();
    }
    DecodeFlat(end.whole, mode, end.cut, MAX_PAYLOAD);
  }

  lemma FlatEmpty(mode: Checksum)
    ensures Flat([], mode) == []
  {
  }

  lemma EmptyNeedsMore()
    ensures Decode([], MAX_PAYLOAD) == NeedMore
  {
  }

  lemma NextPiece(data: seq<byte>, pos: nat, n: nat)
    requires pos + n <= |data|
    ensures data[..pos] + data[pos..][..n] == data[..pos + n]
  {
  }

  // ---- the sender ----

  /** A transport and the flag its senders share. */
  class Sender {
    var out: seq<byte>
    var desync: bool
    var script: seq<Response>
    ghost var whole: seq<Packet>
    ghost var cut: seq<byte>
    ghost var gone: bool

    ghost function Value(): Link
      reads this
    {
      Link(out, desync, script, whole, cut, gone)
    }

    constructor (responses: seq<Response>)
      ensures Value() == Link([], false, responses, [], [], false)
    {
      out, desync, script, whole, cut, gone := [], false, responses, [], [], false;
    }

    /** One `Write::write` of the transport. */
    method TransportWrite(data: seq<byte>) returns (r: Response)
      requires data != []
      modifies this`out, this`script
      ensures r == if old(script) == [] then Abandoned
              else if old(script[0]).Takes? then Takes(Min(old(script[0]).n, |data|)) else old(script[0])
      ensures out == if r.Takes? then old(out) + data[..r.n] else old(out)
      ensures script == if old(script) == [] then [] else old(script[1..])
    {
      if script == [] { return Abandoned; }
      r := script[0];
      script := script[1..];
      if r.Takes? {
        r := Takes(Min(r.n, |data|));
        out := out + data[..r.n];
      }
    }

    /** `write_all`. */
    method WriteBytes(data: seq<byte>) returns (result: Result)
      modifies this`out, this`script
      ensures var (n, res, rest) := WriteAll(|data|, old(script));
              out == old(out) + data[..n] && result == res && script == rest
    {
      var pos := 0;
      ghost var goal := WriteAll(|data|, script);
      while pos < |data|
        invariant pos <= |data| && out == old(out) + data[..pos]
        invariant var (n, res, rest) := WriteAll(|data| - pos, script); goal == (pos + n, res, rest)
        decreases |script|, |data| - pos
      {
        var r := TransportWrite(data[pos..]);
        match r {
          case Takes(n) =>
            if n == 0 { return UnexpectedEof; }
            NextPiece(data, pos, n);
            pos := pos + n;
          case Refuses(gone) => return Io(gone);
          case Abandoned => return Dropped;
        }
      }
      result := Done;
    }

    method FlushOut() returns (result: Result)
      modifies this`script
      ensures (result, script) == Flush(old(script))
    {
      if script == [] { return Dropped; }
      var r := script[0];
      script := script[1..];
      match r {
        case Takes(_) => result := Done;
        case Refuses(gone) => result := Io(gone);
        case Abandoned => result := Dropped;
      }
    }

    /** `write_frame`. */
    method WriteWhole(header: seq<byte>, payload: seq<byte>) returns (result: Result)
      requires |header| == MESSAGE_SIZE
      modifies this`out, this`script
      ensures var (n, res, rest) := WriteFrame(|payload|, old(script));
              out == old(out) + (header + payload)[..n] && result == res && script == rest
    {
      ghost var before := out;
      result := WriteBytes(header);
      if result != Done {
        assert (header + payload)[..|out| - |before|] == header[..|out| - |before|];
        return;
      }
      assert header[..MESSAGE_SIZE] == header;
      if payload != [] {
        result := WriteBytes(payload);
        ghost var n := |out| - |before| - MESSAGE_SIZE;
        assert header + payload[..n] == (header + payload)[..MESSAGE_SIZE + n];
        if result != Done { return; }
      }
      assert header + payload == (header + payload)[..MESSAGE_SIZE + |payload|];
      result := FlushOut();
    }

    /** `send_pkt`: the flag goes up unless the packet got out or the device is gone. */
    method SendPacket(p: Packet, mode: Checksum) returns (result: Result)
      requires p.arg0 < 0x1_0000_0000 && p.arg1 < 0x1_0000_0000
      modifies this
      ensures (Value(), result) == Send(old(Value()), p, mode)
    {
      if desync { return Desynchronized; }
      if |p.data| > MAX_PAYLOAD { return TooLarge; }
      ghost var n := WriteFrame(|p.data|, script).0;
      result := WriteWhole(Header(p, mode), p.data);
      desync := result != Done && !ConnectionGone(result);
      if n == |Encode(p, mode)| { whole := whole + [p]; } else { cut := Encode(p, mode)[..n]; }
      gone := gone || ConnectionGone(result);
    }
  }
}
