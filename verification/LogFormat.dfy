/** Binary log entries (libadb/src/logcat/format.rs). */
module LogFormat {
  import opened Prelude

  const HEADER_PREFIX := 4
  const HEADER_V3_SIZE := 24
  const HEADER_V4_SIZE := 28
  const LOGGER_ENTRY_MAX_LEN := 5 * 1024

  /** A parsed entry; the buffer and the priority are kept as the numbers the header carries. */
  datatype LogEntry = LogEntry(
    pid: nat, tid: nat, sec: nat, nsec: nat, uid: nat, logId: nat, priority: byte, tag: seq<byte>, message: seq<byte>)

  datatype Parsed = Incomplete | Invalid | Entry(entry: LogEntry, consumed: nat)

  /** Buffers whose entries are text: main, radio, system, crash and kernel. */
  predicate IsText(logId: nat) { logId in {0, 1, 3, 4, 7} }

  function U16Le(b: seq<byte>): (n: nat)
    requires |b| == 2
    ensures n < 0x1_0000
  {
    var b0: int, b1: int := b[0], b[1];
    b0 + 256 * b1
  }

  /** The first NUL, or the end. */
  function TagEnd(bytes: seq<byte>): (n: nat)
    ensures n <= |bytes| && (forall i :: 0 <= i < n ==> bytes[i] != 0) && (n < |bytes| ==> bytes[n] == 0)
  {
    if bytes == [] || bytes[0] == 0 then 0 else 1 + TagEnd(bytes[1..])
  }

  function TrimNul(message: seq<byte>): seq<byte> {
    if message != [] && message[|message| - 1] == 0 then message[..|message| - 1] else message
  }

  /** Priority, tag and message of a payload. */
  function Split(logId: nat, payload: seq<byte>): (byte, seq<byte>, seq<byte>) {
    if payload == [] then (0, [], [])
    else if !IsText(logId) then (0, [], payload)
    else
      var rest := payload[1..];
      var end := TagEnd(rest);
      (payload[0], rest[..end], TrimNul(rest[Min(end + 1, |rest|)..]))
  }

  /** How long the entry is that starts here: header and payload. */
  function Announced(bytes: seq<byte>): nat
    requires |bytes| >= HEADER_PREFIX
  {
    U16Le(bytes[2..4]) + U16Le(bytes[0..2])
  }

  predicate BadHeader(bytes: seq<byte>)
    requires |bytes| >= HEADER_PREFIX
  {
    U16Le(bytes[2..4]) < HEADER_V3_SIZE || Announced(bytes) > LOGGER_ENTRY_MAX_LEN
  }

  /** `parse_entry`. */
  function ParseEntry(bytes: seq<byte>): (r: Parsed)
    ensures r.Entry? ==> HEADER_V3_SIZE <= r.consumed <= |bytes| && r.consumed <= LOGGER_ENTRY_MAX_LEN
  {
    if |bytes| < HEADER_PREFIX then Incomplete
    else if BadHeader(bytes) then Invalid
    else if |bytes| < Announced(bytes) then Incomplete
    else
      var hdrSize, total := U16Le(bytes[2..4]), Announced(bytes);
      var uid := if hdrSize >= HEADER_V4_SIZE then U32Le(bytes[24..28]) else 0;
      var logId := U32Le(bytes[20..24]);
      var (priority, tag, message) := Split(logId, bytes[hdrSize..total]);
      Entry(LogEntry(U32Le(bytes[4..8]), U32Le(bytes[8..12]), U32Le(bytes[12..16]), U32Le(bytes[16..20]), uid, logId,
                     priority, tag, message), total)
  }

  /** What is decided of a buffer stays decided whatever follows. */
  lemma ParseStable(bytes: seq<byte>, more: seq<byte>)
    requires !ParseEntry(bytes).Incomplete?
    ensures ParseEntry(bytes + more) == ParseEntry(bytes)
  {
    hide U32Le, Split;
    var all := bytes + more;
    assert all[0..2] == bytes[0..2] && all[2..4] == bytes[2..4];
    if !BadHeader(bytes) {
      var hdrSize, total := U16Le(bytes[2..4]), Announced(bytes);
      assert all[hdrSize..total] == bytes[hdrSize..total];
      assert all[4..8] == bytes[4..8] && all[8..12] == bytes[8..12] && all[12..16] == bytes[12..16];
      assert all[16..20] == bytes[16..20] && all[20..24] == bytes[20..24];
      if hdrSize >= HEADER_V4_SIZE { assert all[24..28] == bytes[24..28]; }
    }
  }

  /** An entry's length is known from its first four bytes on. */
  lemma AnnouncedStable(bytes: seq<byte>, more: seq<byte>)
    requires |bytes| >= HEADER_PREFIX
    ensures Announced(bytes + more) == Announced(bytes) && BadHeader(bytes + more) == BadHeader(bytes)
  {
    var all := bytes + more;
    assert all[0..2] == bytes[0..2] && all[2..4] == bytes[2..4];
  }

  // ---- the writer's side ----

  function U16ToLe(n: nat): (b: seq<byte>)
    requires n < 0x1_0000
    ensures |b| == 2 && U16Le(b) == n
  {
    [n % 256, n / 256]
  }

  /** The payload logd writes for an entry. */
  function PayloadOf(e: LogEntry): seq<byte> {
    if IsText(e.logId) then [e.priority] + e.tag + [0] + e.message + [0] else e.message
  }

  /** An entry logd can write: 32-bit fields, a tag without NUL, room for the payload. */
  predicate Writable(e: LogEntry, hdrSize: nat) {
    && e.pid < 0x1_0000_0000 && e.tid < 0x1_0000_0000 && e.sec < 0x1_0000_0000 && e.nsec < 0x1_0000_0000
    && e.uid < 0x1_0000_0000 && e.logId < 0x1_0000_0000
    && HEADER_V3_SIZE <= hdrSize && hdrSize + |PayloadOf(e)| <= LOGGER_ENTRY_MAX_LEN
    && (hdrSize < HEADER_V4_SIZE ==> e.uid == 0)
    && (if IsText(e.logId) then forall b <- e.tag :: b != 0 else e.tag == [] && e.priority == 0)
  }

  function Encode(e: LogEntry, hdrSize: nat): seq<byte>
    requires Writable(e, hdrSize)
  {
    U16ToLe(|PayloadOf(e)|) + U16ToLe(hdrSize) + U32ToLe(e.pid) + U32ToLe(e.tid) + U32ToLe(e.sec) + U32ToLe(e.nsec)
    + U32ToLe(e.logId)
    + (if hdrSize >= HEADER_V4_SIZE then U32ToLe(e.uid) + seq(hdrSize - HEADER_V4_SIZE, _ => 0)
       else seq(hdrSize - HEADER_V3_SIZE, _ => 0))
    + PayloadOf(e)
  }

  lemma {:induction false} TagEndIs(tag: seq<byte>, rest: seq<byte>)
    requires forall b <- tag :: b != 0
    ensures TagEnd(tag + [0] + rest) == |tag|
  {
    var all := tag + [0] + rest;
    assert all[|tag|] == 0;
    forall i | 0 <= i < |tag| ensures all[i] != 0 { assert tag[i] in tag; }
  }

  /** Splitting a payload gives back what it was made of. */
  lemma SplitInverts(e: LogEntry, hdrSize: nat)
    requires Writable(e, hdrSize)
    ensures Split(e.logId, PayloadOf(e)) == (e.priority, e.tag, e.message)
  {
    if IsText(e.logId) {
      var payload := PayloadOf(e);
      var rest := payload[1..];
      assert rest == e.tag + [0] + (e.message + [0]);
      TagEndIs(e.tag, e.message + [0]);
      assert rest[..|e.tag|] == e.tag;
      assert rest[|e.tag| + 1..] == e.message + [0];
      assert (e.message + [0])[..|e.message|] == e.message;
    }
  }

  /** `parse_entry` reads back every entry logd writes, however much follows it. */
  lemma ParseInvertsEncode(e: LogEntry, hdrSize: nat, more: seq<byte>)
    requires Writable(e, hdrSize)
    ensures ParseEntry(Encode(e, hdrSize) + more) == Entry(e, hdrSize + |PayloadOf(e)|)
  {
    var bytes := Encode(e, hdrSize);
    HeaderInverts(e, hdrSize);
    SplitInverts(e, hdrSize);
    assert bytes[hdrSize..hdrSize + |PayloadOf(e)|] == PayloadOf(e);
    ParseStable(bytes, more);
  }

  lemma HeaderInverts(e: LogEntry, hdrSize: nat)
    requires Writable(e, hdrSize)
    ensures var b := Encode(e, hdrSize);
            && |b| == hdrSize + |PayloadOf(e)| && b[hdrSize..] == PayloadOf(e)
            && U16Le(b[0..2]) == |PayloadOf(e)| && U16Le(b[2..4]) == hdrSize
            && U32Le(b[4..8]) == e.pid && U32Le(b[8..12]) == e.tid && U32Le(b[12..16]) == e.sec
            && U32Le(b[16..20]) == e.nsec && U32Le(b[20..24]) == e.logId
            && (hdrSize >= HEADER_V4_SIZE ==> U32Le(b[24..28]) == e.uid)
  {
    hide U32ToLe, U16ToLe, U32Le, U16Le, PayloadOf, IsText;
    var b := Encode(e, hdrSize);
    assert b[0..2] == U16ToLe(|PayloadOf(e)|) && b[2..4] == U16ToLe(hdrSize);
    assert b[4..8] == U32ToLe(e.pid) && b[8..12] == U32ToLe(e.tid);
    assert b[12..16] == U32ToLe(e.sec) && b[16..20] == U32ToLe(e.nsec) && b[20..24] == U32ToLe(e.logId);
    if hdrSize >= HEADER_V4_SIZE { assert b[24..28] == U32ToLe(e.uid); }
  }
}
