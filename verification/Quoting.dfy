/**
 Destinations and shell arguments (libadb/src/base/destination.rs), against the
 quoting rules of section 2.2 of the POSIX Shell Command Language.
 */
module Quoting {
  import opened Prelude

  const SPACE: byte := 0x20
  const QUOTE: byte := 0x27
  const BACKSLASH: byte := 0x5C

  // ---- what is written ----

  /** `is_shell_safe`. */
  predicate ShellSafe(b: byte) {
    || (0x30 <= b <= 0x39) || (0x41 <= b <= 0x5A) || (0x61 <= b <= 0x7A)
    || b in {0x5F, 0x40, 0x25, 0x2B, 0x3D, 0x3A, 0x2C, 0x2E, 0x2F, 0x2D}
  }

  predicate Bare(arg: seq<byte>) { arg != [] && forall b <- arg :: ShellSafe(b) }

  /** The bytes between the quotes: a quote ends the quoting, is escaped, and starts it again. */
  function Inside(arg: seq<byte>): seq<byte> {
    if arg == [] then []
    else Inside(arg[..|arg| - 1]) + Piece(arg[|arg| - 1])
  }

  function Piece(b: byte): (p: seq<byte>)
    ensures p != []
  {
    if b == QUOTE then [QUOTE, BACKSLASH, QUOTE, QUOTE] else [b]
  }

  function Quoted(arg: seq<byte>): seq<byte> {
    if Bare(arg) then arg else [QUOTE] + Inside(arg) + [QUOTE]
  }

  function Joined(parts: seq<seq<byte>>): seq<byte> {
    if parts == [] then [] else Joined(parts[..|parts| - 1]) + parts[|parts| - 1]
  }

  function Arguments(args: seq<seq<byte>>): seq<byte> {
    if args == [] then [] else Arguments(args[..|args| - 1]) + [SPACE] + Quoted(args[|args| - 1])
  }

  /** The destination without its closing NUL. */
  function Text(prefixes: seq<seq<byte>>, args: seq<seq<byte>>): seq<byte> { Joined(prefixes) + Arguments(args) }

  predicate HasNul(parts: seq<seq<byte>>) { exists p <- parts :: 0 in p }

  // ---- how a POSIX shell splits it ----

  /** Between words or in one, within single quotes, or right behind a backslash. */
  datatype Mode = Plain | SingleQuoted | Escaped

  /**
   `word`: the word being read, if one has begun; `literal` turns false at an unquoted
   operator, expansion or pattern.
   */
  datatype Reader = Reader(words: seq<seq<byte>>, word: Option<seq<byte>>, mode: Mode, literal: bool)

  predicate Blank(b: byte) { b in {0x20, 0x09, 0x0A} }

  /**
   What section 2.2 lists as special unless quoted, apart from quotes, backslash,
   blanks, and `=` and `%`, which stand for themselves except that a word like
   `A=b` in front of the command word is an assignment (see `Invoked`).
   */
  predicate Special(b: byte) {
    // | & ; < > ( ) $ ` " * ? [ # ~
    b in {0x7C, 0x26, 0x3B, 0x3C, 0x3E, 0x28, 0x29, 0x24, 0x60, 0x22, 0x2A, 0x3F, 0x5B, 0x23, 0x7E}
  }

  function Begun(r: Reader): seq<byte> { if r.word.Some? then r.word.value else [] }

  function ReadByte(r: Reader, b: byte): Reader {
    match r.mode
    case SingleQuoted => if b == QUOTE then r.(mode := Plain) else r.(word := Some(Begun(r) + [b]))
    case Escaped => if b == 0x0A then r.(mode := Plain) else r.(word := Some(Begun(r) + [b]), mode := Plain)
    case Plain =>
      if Blank(b) then if r.word.Some? then r.(words := r.words + [r.word.value], word := None) else r
      else if b == QUOTE then r.(word := Some(Begun(r)), mode := SingleQuoted)
      else if b == BACKSLASH then r.(mode := Escaped)
      else if Special(b) then r.(literal := false)
      else r.(word := Some(Begun(r) + [b]))
  }

  function ReadOn(r: Reader, text: seq<byte>): Reader {
    if text == [] then r else ReadByte(ReadOn(r, text[..|text| - 1]), text[|text| - 1])
  }

  const AT_START := Reader([], None, Plain, true)

  /** The words of a simple command. `None`: more than words, or an open quote. */
  function SplitWords(text: seq<byte>): Option<seq<seq<byte>>> {
    var r := ReadOn(AT_START, text);
    if !r.literal || r.mode != Plain then None
    else Some(if r.word.Some? then r.words + [r.word.value] else r.words)
  }

  lemma {:induction false} ReadJoins(r: Reader, a: seq<byte>, b: seq<byte>)
    ensures ReadOn(r, a + b) == ReadOn(ReadOn(r, a), b)
  {
    if b == [] {
      assert a + b == a;
    } else {
      ReadJoins(r, a, b[..|b| - 1]);
      assert (a + b)[..|a + b| - 1] == a + b[..|b| - 1];
    }
  }

  lemma ReadOne(r: Reader, b: byte)
    ensures ReadOn(r, [b]) == ReadByte(r, b)
  {
    assert [b][..0] == [];
  }

  // ---- the round trip ----

  lemma SafeIsLiteral(b: byte)
    requires ShellSafe(b)
    ensures !Blank(b) && b != QUOTE && b != BACKSLASH && !Special(b)
  {
  }

  /** A bare argument is read as it stands. */
  lemma {:induction false} ReadBare(r: Reader, arg: seq<byte>)
    requires r.mode == Plain && r.word.None? && forall b <- arg :: ShellSafe(b)
    ensures ReadOn(r, arg) == if arg == [] then r else r.(word := Some(arg))
  {
    if arg != [] {
      var n := |arg| - 1;
      ReadBare(r, arg[..n]);
      SafeIsLiteral(arg[n]);
      assert arg == arg[..n] + [arg[n]];
    }
  }

  /** An escaped quote inside quotes is one quote. */
  lemma ReadEscapedQuote(r: Reader)
    requires r.mode == SingleQuoted && r.word.Some?
    ensures ReadOn(r, [QUOTE, BACKSLASH, QUOTE, QUOTE]) == r.(word := Some(r.word.value + [QUOTE]))
  {
    var text := [QUOTE, BACKSLASH, QUOTE, QUOTE];
    var r1 := r.(mode := Plain);
    var r2 := r.(mode := Escaped);
    var r3 := r.(word := Some(r.word.value + [QUOTE]), mode := Plain);
    assert ReadByte(r, QUOTE) == r1 && ReadByte(r1, BACKSLASH) == r2 && ReadByte(r2, QUOTE) == r3;
    assert ReadByte(r3, QUOTE) == r3.(mode := SingleQuoted);
    hide ReadByte;
    assert text[..3][..2][..1] == [QUOTE];
    ReadOne(r, QUOTE);
    assert ReadOn(r, text[..3][..2]) == r2;
    assert ReadOn(r, text[..3]) == r3;
  }

  lemma ReadNothing(r: Reader)
    ensures ReadOn(r, []) == r
  {
  }

  /** Between quotes every byte but the quote stands for itself. */
  lemma {:induction false} ReadInside(r: Reader, arg: seq<byte>)
    requires r.mode == SingleQuoted && r.word == Some([])
    ensures ReadOn(r, Inside(arg)) == r.(word := Some(arg))
  {
    hide ReadByte, ReadOn, Piece;
    if arg == [] {
      ReadNothing(r);
    } else {
      var n := |arg| - 1;
      ReadInside(r, arg[..n]);
      ReadJoins(r, Inside(arg[..n]), Piece(arg[n]));
      ReadPiece(r.(word := Some(arg[..n])), arg[n]);
      assert arg[..n] + [arg[n]] == arg;
    }
  }

  lemma ReadPiece(r: Reader, b: byte)
    requires r.mode == SingleQuoted && r.word.Some?
    ensures ReadOn(r, Piece(b)) == r.(word := Some(r.word.value + [b]))
  {
    if b == QUOTE { ReadEscapedQuote(r); } else { ReadOne(r, b); }
  }

  /** A written argument is read back as one word, whatever its bytes. */
  lemma ReadQuoted(r: Reader, arg: seq<byte>)
    requires r.mode == Plain && r.word.None?
    ensures ReadOn(r, Quoted(arg)) == r.(word := Some(arg))
  {
    if Bare(arg) {
      ReadBare(r, arg);
    } else {
      var within := r.(word := Some([]), mode := SingleQuoted);
      assert ReadByte(r, QUOTE) == within && ReadByte(within.(word := Some(arg)), QUOTE) == r.(word := Some(arg));
      hide ReadByte, ReadOn, Inside;
      ReadOne(r, QUOTE);
      ReadJoins(r, [QUOTE], Inside(arg));
      ReadInside(within, arg);
      ReadJoins(r, [QUOTE] + Inside(arg), [QUOTE]);
      ReadOne(within.(word := Some(arg)), QUOTE);
    }
  }

  /** A blank ends the word before it. */
  lemma ReadSpace(r: Reader)
    requires r.mode == Plain
    ensures ReadOn(r, [SPACE]) == r.(words := if r.word.Some? then r.words + [r.word.value] else r.words, word := None)
  {
    ReadOne(r, SPACE);
  }

  /**
   The shell splits a command and the arguments written behind it into the
   command's own words and exactly the arguments: none is split, joined,
   expanded or lost, empty ones included.
   */
  lemma {:induction false} ArgumentsRoundTrip(command: seq<byte>, args: seq<seq<byte>>)
    requires SplitWords(command).Some?
    ensures SplitWords(command + Arguments(args)) == Some(SplitWords(command).value + args)
  {
    hide SplitWords, Quoted;
    var words := SplitWords(command).value;
    if args == [] {
      assert command + Arguments(args) == command;
      assert words + args == words;
    } else {
      var n := |args| - 1;
      ArgumentsRoundTrip(command, args[..n]);
      var before := command + Arguments(args[..n]);
      OneMore(before, args[n]);
      assert command + Arguments(args) == before + [SPACE] + Quoted(args[n]);
      assert words + args == words + args[..n] + [args[n]];
    }
  }

  // ---- assignments in front of a command ----

  predicate NameByte(b: byte) { (0x30 <= b <= 0x39) || (0x41 <= b <= 0x5A) || (0x61 <= b <= 0x7A) || b == 0x5F }

  /** A word that spells a name, `=` and a value. */
  predicate Assigns(word: seq<byte>) {
    exists n ::
      0 < n < |word| && word[n] == 0x3D && (forall b <- word[..n] :: NameByte(b)) && !(0x30 <= word[0] <= 0x39)
  }

  /** The command word and its arguments: what follows the leading assignments. */
  function Invoked(words: seq<seq<byte>>): (r: seq<seq<byte>>)
    ensures |r| <= |words|
  {
    if words != [] && Assigns(words[0]) then Invoked(words[1..]) else words
  }

  /**
   Exactly when the arguments arrive as arguments: behind a command word, or unless the
   first of them is an assignment.
   */
  lemma {:induction false} ArgumentsInvoked(words: seq<seq<byte>>, args: seq<seq<byte>>)
    ensures Invoked(words + args) == Invoked(words) + args <==> Invoked(words) != [] || args == [] || !Assigns(args[0])
  {
    hide Assigns;
    if words == [] {
      assert words + args == args && [] + args == args;
    } else if Assigns(words[0]) {
      ArgumentsInvoked(words[1..], args);
      assert (words + args)[1..] == words[1..] + args;
    }
  }

  lemma {:induction false} JoinedSplits(parts: seq<seq<byte>>, n: nat)
    requires n <= |parts|
    ensures Joined(parts) == Joined(parts[..n]) + Joined(parts[n..])
  {
    if n == |parts| {
      assert parts[..n] == parts;
    } else {
      var m := |parts| - 1;
      JoinedSplits(parts[..m], n);
      assert parts[..m][..n] == parts[..n] && parts[..m][n..] == parts[n..][..m - n];
      assert Joined(parts[n..]) == Joined(parts[n..][..m - n]) + parts[m];
    }
  }

  /** So does the command of a whole destination, behind the service that runs it, however many prefixes each takes. */
  lemma DestinationRoundTrip(prefixes: seq<seq<byte>>, n: nat, args: seq<seq<byte>>)
    requires n <= |prefixes| && SplitWords(Joined(prefixes[n..])).Some?
    ensures var service, command := Joined(prefixes[..n]), Joined(prefixes[n..]);
            && service <= Text(prefixes, args)
            && SplitWords(Text(prefixes, args)[|service|..]) == Some(SplitWords(command).value + args)
  {
    hide SplitWords, Arguments, Joined;
    var service, command := Joined(prefixes[..n]), Joined(prefixes[n..]);
    JoinedSplits(prefixes, n);
    assert Text(prefixes, args) == service + (command + Arguments(args));
    ArgumentsRoundTrip(command, args);
  }

  lemma OneMore(before: seq<byte>, arg: seq<byte>)
    requires SplitWords(before).Some?
    ensures SplitWords(before + [SPACE] + Quoted(arg)) == Some(SplitWords(before).value + [arg])
  {
    hide ReadOn, Quoted;
    var r := ReadOn(AT_START, before);
    ReadJoins(AT_START, before, [SPACE]);
    ReadSpace(r);
    var between := ReadOn(AT_START, before + [SPACE]);
    ReadJoins(AT_START, before + [SPACE], Quoted(arg));
    ReadQuoted(between, arg);
  }

  // ---- writing it into a buffer ----

  datatype DestinationError = TooLong | Nul

  /** What has been written so far, and that nothing behind it has changed. */
  ghost predicate Written(now: seq<byte>, before: seq<byte>, text: seq<byte>) {
    |text| <= |now| == |before| && now[..|text|] == text && now[|text|..] == before[|text|..]
  }

  /** `write_bytes`. */
  method WriteBytes(buf: array<byte>, len: nat, src: seq<byte>, ghost before: seq<byte>, ghost text: seq<byte>)
    returns (r: Result<nat, DestinationError>)
    requires Written(buf[..], before, text) && len == |text|
    modifies buf
    ensures r.Ok? <==> len + |src| <= buf.Length
    ensures r.Ok? ==> r.value == len + |src| && Written(buf[..], before, text + src)
    ensures r.Err? ==> r.error == TooLong && buf[..] == old(buf[..])
  {
    var end := len + |src|;
    if end > buf.Length { return Err(TooLong); }
    forall i | len <= i < end { buf[i] := src[i - len]; }
    ghost var now := buf[..];
    assert now[..end] == text + src by {
      assert forall i :: 0 <= i < len ==> now[i] == old(buf[..])[i] == text[i];
    }
    assert now[end..] == before[end..] by {
      assert forall i :: end <= i < |now| ==>
               now[i] == old(buf[..])[i] == old(buf[..])[len..][i - len] == before[len..][i - len];
    }
    r := Ok(end);
  }

  /** `write_quoted`. */
  method WriteQuoted(buf: array<byte>, len: nat, arg: seq<byte>, ghost before: seq<byte>, ghost text: seq<byte>)
    returns (r: Result<nat, DestinationError>)
    requires Written(buf[..], before, text) && len == |text|
    modifies buf
    ensures r.Ok? <==> len + |Quoted(arg)| <= buf.Length
    ensures r.Ok? ==> r.value == len + |Quoted(arg)| && Written(buf[..], before, text + Quoted(arg))
    ensures r.Err? ==> r.error == TooLong
  {
    hide Written;
    if Bare(arg) {
      r := WriteBytes(buf, len, arg, before, text);
      return;
    }
    r := WriteBytes(buf, len, [QUOTE], before, text);
    if r.Err? { return; }
    var end := r.value;
    end, r := WriteInside(buf, end, arg, before, text + [QUOTE]);
    if r.Err? { return; }
    r := WriteBytes(buf, end, [QUOTE], before, text + [QUOTE] + Inside(arg));
    Around(text, Inside(arg));
  }

  lemma Around(text: seq<byte>, inside: seq<byte>)
    ensures text + [QUOTE] + inside + [QUOTE] == text + ([QUOTE] + inside + [QUOTE])
  {
  }

  lemma ThenPiece(text: seq<byte>, arg: seq<byte>, i: nat)
    requires i < |arg|
    ensures text + Inside(arg[..i]) + Piece(arg[i]) == text + Inside(arg[..i + 1])
    ensures |Inside(arg[..i + 1])| <= |Inside(arg)|
  {
    hide Piece, Inside;
    InsideStep(arg, i);
    InsideGrows(arg, i + 1);
  }

  /** The loop over the argument's bytes. */
  method WriteInside(buf: array<byte>, len: nat, arg: seq<byte>, ghost before: seq<byte>, ghost text: seq<byte>)
    returns (end: nat, r: Result<nat, DestinationError>)
    requires Written(buf[..], before, text) && len == |text| <= buf.Length
    modifies buf
    ensures r.Ok? <==> len + |Inside(arg)| <= buf.Length
    ensures r.Ok? ==> end == len + |Inside(arg)| && Written(buf[..], before, text + Inside(arg))
    ensures r.Err? ==> r.error == TooLong
  {
    hide Written, Piece;
    end := len;
    r := Ok(len);
    assert text + Inside(arg[..0]) == text;
    for i := 0 to |arg|
      invariant r.Ok? && end == len + |Inside(arg[..i])| <= buf.Length
      invariant Written(buf[..], before, text + Inside(arg[..i]))
    {
      ThenPiece(text, arg, i);
      InsideStep(arg, i);
      r := WriteBytes(buf, end, Piece(arg[i]), before, text + Inside(arg[..i]));
      if r.Err? { return; }
      end := r.value;
    }
    assert arg[..|arg|] == arg;
  }

  lemma InsideStep(arg: seq<byte>, i: nat)
    requires i < |arg|
    ensures Inside(arg[..i + 1]) == Inside(arg[..i]) + Piece(arg[i])
  {
    assert arg[..i + 1][..i] == arg[..i];
  }

  lemma {:induction false} InsideGrows(arg: seq<byte>, i: nat)
    requires i <= |arg|
    ensures |Inside(arg[..i])| <= |Inside(arg)|
    decreases |arg| - i
  {
    if i == |arg| { assert arg[..i] == arg; } else { InsideStep(arg, i); InsideGrows(arg, i + 1); }
  }

  lemma JoinedStep(parts: seq<seq<byte>>, i: nat)
    requires i < |parts|
    ensures Joined(parts[..i + 1]) == Joined(parts[..i]) + parts[i]
  {
    assert parts[..i + 1][..i] == parts[..i];
  }

  lemma ArgumentsStep(args: seq<seq<byte>>, i: nat)
    requires i < |args|
    ensures Arguments(args[..i + 1]) == Arguments(args[..i]) + [SPACE] + Quoted(args[i])
  {
    assert args[..i + 1][..i] == args[..i];
  }

  lemma {:induction false} JoinedGrows(parts: seq<seq<byte>>, i: nat)
    requires i <= |parts|
    ensures |Joined(parts[..i])| <= |Joined(parts)|
    decreases |parts| - i
  {
    if i == |parts| { assert parts[..i] == parts; } else { JoinedStep(parts, i); JoinedGrows(parts, i + 1); }
  }

  lemma {:induction false} ArgumentsGrow(args: seq<seq<byte>>, i: nat)
    requires i <= |args|
    ensures |Arguments(args[..i])| <= |Arguments(args)|
    decreases |args| - i
  {
    hide Quoted;
    if i == |args| { assert args[..i] == args; } else { ArgumentsStep(args, i); ArgumentsGrow(args, i + 1); }
  }

  method WritePrefixes(buf: array<byte>, prefixes: seq<seq<byte>>, ghost before: seq<byte>)
    returns (r: Result<nat, DestinationError>)
    requires buf[..] == before
    modifies buf
    ensures r.Ok? <==> |Joined(prefixes)| <= buf.Length
    ensures r.Ok? ==> r.value == |Joined(prefixes)| && Written(buf[..], before, Joined(prefixes))
    ensures r.Err? ==> r.error == TooLong
  {
    r := Ok(0);
    assert Written(buf[..], before, []);
    hide Written;
    for i := 0 to |prefixes|
      invariant r.Ok? && r.value == |Joined(prefixes[..i])| <= buf.Length
                && Written(buf[..], before, Joined(prefixes[..i]))
    {
      JoinedStep(prefixes, i);
      JoinedGrows(prefixes, i + 1);
      r := WriteBytes(buf, r.value, prefixes[i], before, Joined(prefixes[..i]));
      if r.Err? { return; }
    }
    assert prefixes[..|prefixes|] == prefixes;
  }

  method WriteArguments(buf: array<byte>, len: nat, args: seq<seq<byte>>, ghost before: seq<byte>,
                        ghost text: seq<byte>)
    returns (r: Result<nat, DestinationError>)
    requires Written(buf[..], before, text) && len == |text| <= buf.Length
    modifies buf
    ensures r.Ok? <==> len + |Arguments(args)| <= buf.Length
    ensures r.Ok? ==> r.value == len + |Arguments(args)| && Written(buf[..], before, text + Arguments(args))
    ensures r.Err? ==> r.error == TooLong
  {
    hide Written, Quoted;
    r := Ok(len);
    assert text + Arguments(args[..0]) == text;
    for i := 0 to |args|
      invariant r.Ok? && r.value == len + |Arguments(args[..i])| <= buf.Length
      invariant Written(buf[..], before, text + Arguments(args[..i]))
    {
      ArgumentsStep(args, i);
      ArgumentsGrow(args, i + 1);
      ghost var sofar := text + Arguments(args[..i]);
      r := WriteBytes(buf, r.value, [SPACE], before, sofar);
      if r.Err? { return; }
      r := WriteQuoted(buf, r.value, args[i], before, sofar + [SPACE]);
      if r.Err? { return; }
      ThenArgument(text, Arguments(args[..i]), Quoted(args[i]));
    }
    assert args[..|args|] == args;
  }

  lemma ThenArgument(text: seq<byte>, a: seq<byte>, quoted: seq<byte>)
    ensures text + a + [SPACE] + quoted == text + (a + [SPACE] + quoted)
  {
  }

  /**
   `write_destination`. A NUL in any part is refused first; then the text and its
   closing NUL are written exactly when they fit, and nothing behind them changes.
   */
  method WriteDestination(buf: array<byte>, prefixes: seq<seq<byte>>, args: seq<seq<byte>>)
    returns (r: Result<nat, DestinationError>)
    modifies buf
    ensures r == Err(Nul) <==> HasNul(prefixes) || HasNul(args)
    ensures r == Err(TooLong) <==> !HasNul(prefixes) && !HasNul(args) && |Text(prefixes, args)| + 1 > buf.Length
    ensures r.Ok? ==>
              r.value == |Text(prefixes, args)| + 1 && Written(buf[..], old(buf[..]), Text(prefixes, args) + [0])
  {
    if HasNul(prefixes) || HasNul(args) { return Err(Nul); }
    hide Written, HasNul;
    ghost var before := buf[..];
    r := WritePrefixes(buf, prefixes, before);
    if r.Err? { return; }
    r := WriteArguments(buf, r.value, args, before, Joined(prefixes));
    if r.Err? { return; }
    r := WriteBytes(buf, r.value, [0], before, Text(prefixes, args));
  }

  // ---- NUL-separated arguments ----

  /** The service, each argument with its NUL, and a NUL in any case. */
  function NulText(service: seq<byte>, args: seq<seq<byte>>): seq<byte> {
    if args == [] then service + [0] else NulArgs(service, args)
  }

  function NulArgs(service: seq<byte>, args: seq<seq<byte>>): seq<byte> {
    if args == [] then service else NulArgs(service, args[..|args| - 1]) + args[|args| - 1] + [0]
  }

  predicate Refused(service: seq<byte>, args: seq<seq<byte>>) { 0 in service || exists a <- args :: a == [] || 0 in a }

  /** `build_nul_destination`. */
  method BuildNulDestination(service: seq<byte>, args: seq<seq<byte>>) returns (r: Option<seq<byte>>)
    ensures r == if Refused(service, args) then None else Some(NulText(service, args))
  {
    if Refused(service, args) { return None; }
    var dest := service;
    for i := 0 to |args|
      invariant dest == NulArgs(service, args[..i])
      invariant i > 0 ==> dest != [] && dest[|dest| - 1] == 0
    {
      assert args[..i + 1][..i] == args[..i];
      dest := dest + args[i] + [0];
    }
    assert args[..|args|] == args;
    if dest == [] || dest[|dest| - 1] != 0 { dest := dest + [0]; }
    r := Some(dest);
  }

  function FirstNul(bytes: seq<byte>): (n: nat)
    ensures n <= |bytes| && (n < |bytes| ==> bytes[n] == 0) && forall i :: 0 <= i < n ==> bytes[i] != 0
  {
    if bytes == [] || bytes[0] == 0 then 0 else 1 + FirstNul(bytes[1..])
  }

  /** The NUL-terminated pieces the device finds. */
  function Terminated(bytes: seq<byte>): seq<seq<byte>>
    decreases |bytes|
  {
    var n := FirstNul(bytes);
    if n == |bytes| then [] else [bytes[..n]] + Terminated(bytes[n + 1..])
  }

  function EachTerminated(args: seq<seq<byte>>): seq<byte> {
    if args == [] then [] else args[0] + [0] + EachTerminated(args[1..])
  }

  lemma {:induction false} NulArgsAre(service: seq<byte>, args: seq<seq<byte>>)
    ensures NulArgs(service, args) == service + EachTerminated(args)
  {
    if args != [] {
      var n := |args| - 1;
      NulArgsAre(service, args[..n]);
      EachPush(args[..n], args[n]);
      assert args == args[..n] + [args[n]];
    }
  }

  lemma {:induction false} EachPush(args: seq<seq<byte>>, a: seq<byte>)
    ensures EachTerminated(args + [a]) == EachTerminated(args) + a + [0]
  {
    if args == [] {
      assert [a][1..] == [];
      assert a + [0] + [] == [] + a + [0];
      assert [] + [a] == [a];
    } else {
      EachPush(args[1..], a);
      assert (args + [a])[1..] == args[1..] + [a];
    }
  }

  lemma {:induction false} TerminatedInverts(args: seq<seq<byte>>)
    requires !HasNul(args)
    ensures Terminated(EachTerminated(args)) == args
  {
    if args != [] {
      var rest := EachTerminated(args[1..]);
      var bytes := args[0] + [0] + rest;
      var n := FirstNul(bytes);
      assert args[0] in args && bytes[|args[0]|] == 0;
      assert forall i :: 0 <= i < |args[0]| ==> bytes[i] == args[0][i];
      assert n == |args[0]|;
      assert bytes[..n] == args[0] && bytes[n + 1..] == rest;
      TerminatedInverts(args[1..]);
    }
  }

  /** The device finds exactly the arguments behind the service. */
  lemma NulRoundTrip(service: seq<byte>, args: seq<seq<byte>>)
    requires args != [] && !Refused(service, args)
    ensures service <= NulText(service, args)
    ensures Terminated(NulText(service, args)[|service|..]) == args
  {
    NulArgsAre(service, args);
    TerminatedInverts(args);
    assert (service + EachTerminated(args))[|service|..] == EachTerminated(args);
  }
}
