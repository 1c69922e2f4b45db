/**
 The append-only event log as bytes: one JSON object a line.

 The JSON encoder is a parameter (`Codec`).  What the proofs need of it is
 `Faithful`: an encoded event is a single-line JSON object and decodes to itself, with
 its payload compacted, whatever white space the payload had.
 */
module EventLog {
  import opened Wrappers

  newtype Byte = x: int | 0 <= x < 256

  const NEWLINE: Byte := 10
  const OPEN_BRACE: Byte := 123
  const CLOSE_BRACE: Byte := 125
  const CURRENT_VERSION := 6
  const CHECKPOINT_KIND := "event_log_checkpoint"

  datatype Event = Event(
    version: int, eventId: string, sequence: nat, timestamp: int, repoId: string,
    issueNumber: int, runId: string, kind: string, payload: seq<Byte>)

  /** A payload is raw JSON: a log line holds it compact, an indented file gives it back with the
      white space that the indentation put into it. */
  datatype Codec = Codec(
    encode: Event -> seq<Byte>, decode: seq<Byte> -> Option<Event>,
    compact: seq<Byte> -> seq<Byte>, indent: seq<Byte> -> seq<Byte>)
  {
    ghost predicate Faithful() {
      && (forall e :: IsObject(encode(e)) && decode(encode(e)) == Some(Compacted(e))
            && encode(Compacted(e)) == encode(e))
      && (forall p :: compact(compact(p)) == compact(p) && compact(indent(p)) == compact(p))
    }

    /** The bytes written for one event. */
    function Line(e: Event): seq<Byte> { encode(e) + [NEWLINE] }

    /** The event as its line gives it back. */
    function Compacted(e: Event): Event { e.(payload := compact(e.payload)) }

    /** The event as an indented file gives it back. */
    function Indented(e: Event): Event { e.(payload := indent(e.payload)) }

    /** Indentation leaves the compact payload as it is: it is null, a scalar or empty. */
    predicate Survives(payload: seq<Byte>) { indent(compact(payload)) == compact(payload) }
  }

  lemma IndentedLine(c: Codec, e: Event)
    requires c.Faithful()
    ensures c.Compacted(c.Indented(e)) == c.Compacted(e) && c.Line(c.Indented(e)) == c.Line(e)
    ensures c.Compacted(c.Compacted(e)) == c.Compacted(e)
  {
    assert c.encode(c.Compacted(c.Indented(e))) == c.encode(c.Indented(e));
    assert c.encode(c.Compacted(e)) == c.encode(e);
  }

  predicate IsObject(b: seq<Byte>) {
    |b| >= 2 && b[0] == OPEN_BRACE && b[|b| - 1] == CLOSE_BRACE && NEWLINE !in b
  }

  predicate IsSpace(b: Byte) { 9 <= b <= 13 || b == 32 }

  function TrimLeft(b: seq<Byte>): seq<Byte> {
    if b != [] && IsSpace(b[0]) then TrimLeft(b[1..]) else b
  }

  function TrimRight(b: seq<Byte>): seq<Byte> {
    if b != [] && IsSpace(b[|b| - 1]) then TrimRight(b[..|b| - 1]) else b
  }

  function Trim(b: seq<Byte>): seq<Byte> { TrimRight(TrimLeft(b)) }

  /** The result of reading a log.  `validBytes` is where the last complete line ends;
      `partial` says that bytes without a final newline follow it. */
  datatype LogRead =
    | LogOk(events: seq<Event>, validBytes: nat, partial: bool)
    | LogCorrupt
    | LogIncompatible
  {
    function Shift(prefix: seq<Event>, bytes: nat): LogRead {
      match this
      case LogOk(es, v, p) => LogOk(prefix + es, bytes + v, p)
      case _ => this
    }
  }

  datatype LineRead = Blank | Entry(event: Event) | Malformed | Foreign

  function ReadLine(c: Codec, repo: string, line: seq<Byte>): LineRead {
    var text := Trim(line);
    if text == [] then Blank
    else match c.decode(text)
      case None => Malformed
      case Some(e) =>
        if e.version != CURRENT_VERSION then Foreign
        else if e.repoId != repo then Malformed
        else Entry(e)
  }

  /** The first `n` bytes of `b` are its first complete line. */
  predicate FirstLine(b: seq<Byte>, n: nat) {
    0 < n <= |b| && b[n - 1] == NEWLINE && forall k :: 0 <= k < n - 1 ==> b[k] != NEWLINE
  }

  /** The length of the first complete line, or zero. */
  method FindLine(b: seq<Byte>) returns (n: nat)
    ensures if n > 0 then FirstLine(b, n) else NEWLINE !in b
  {
    for i := 0 to |b|
      invariant forall k :: 0 <= k < i ==> b[k] != NEWLINE
    {
      if b[i] == NEWLINE { return i + 1; }
    }
    return 0;
  }

  lemma FirstLineExists(b: seq<Byte>)
    requires NEWLINE in b
    ensures exists n: nat :: FirstLine(b, n)
  {
    var i := 0;
    while b[i] != NEWLINE
      invariant i < |b|
      invariant forall k :: 0 <= k < i ==> b[k] != NEWLINE
      decreases |b| - i
    {
      i := i + 1;
    }
    assert FirstLine(b, i + 1);
  }

  ghost function FirstLineLength(b: seq<Byte>): (n: nat)
    requires NEWLINE in b
    ensures FirstLine(b, n)
  {
    FirstLineExists(b);
    var n: nat :| FirstLine(b, n);
    n
  }

  type LineReader = seq<Byte> -> LineRead

  function Reader(c: Codec, repo: string): LineReader {
    line => ReadLine(c, repo, line)
  }

  /** What a log of these bytes means, line by line. */
  ghost function Parse(read: LineReader, b: seq<Byte>): (r: LogRead)
    ensures r.LogOk? ==> r.validBytes <= |b| && (r.partial <==> r.validBytes < |b|)
    decreases |b|
  {
    if b == [] then LogOk([], 0, false)
    else if NEWLINE !in b then LogOk([], 0, true)
    else
      var n := FirstLineLength(b);
      FollowedBy(read(b[..n]), n, Parse(read, b[n..]))
  }

  function FollowedBy(line: LineRead, bytes: nat, rest: LogRead): LogRead {
    match line
    case Blank => rest.Shift([], bytes)
    case Entry(e) => rest.Shift([e], bytes)
    case Malformed => LogCorrupt
    case Foreign => LogIncompatible
  }

  lemma ShiftAgain(r: LogRead, es: seq<Event>, n: nat, fs: seq<Event>, m: nat)
    ensures r.Shift(es, n).Shift(fs, m) == r.Shift(fs + es, m + n)
    ensures r.Shift([], 0) == r
  {
    if r.LogOk? { assert fs + (es + r.events) == (fs + es) + r.events; }
  }

  function Found(line: LineRead): seq<Event> {
    if line.Entry? then [line.event] else []
  }

  lemma ReadStep(read: LineReader, b: seq<Byte>, n: nat, events: seq<Event>, before: nat)
    requires FirstLine(b, n)
    ensures var line := read(b[..n]);
            Parse(read, b).Shift(events, before) ==
            if line.Malformed? then LogCorrupt
            else if line.Foreign? then LogIncompatible
            else Parse(read, b[n..]).Shift(events + Found(line), before + n)
  {
    ParseStep(read, b, n);
    ShiftAgain(Parse(read, b[n..]), Found(read(b[..n])), n, events, before);
  }

  /** Reads the log line by line, as the store does. */
  method ReadEvents(read: LineReader, data: seq<Byte>) returns (r: LogRead)
    ensures r == Parse(read, data)
  {
    var events: seq<Event> := [];
    var validBytes := 0;
    var rest := data;
    ShiftAgain(Parse(read, data), [], 0, [], 0);
    var n := FindLine(rest);
    while n > 0
      invariant validBytes + |rest| == |data|
      invariant if n > 0 then FirstLine(rest, n) else NEWLINE !in rest
      invariant Parse(read, data) == Parse(read, rest).Shift(events, validBytes)
      decreases |rest|
    {
      var line := read(rest[..n]);
      ReadStep(read, rest, n, events, validBytes);
      if line.Malformed? { return LogCorrupt; }
      if line.Foreign? { return LogIncompatible; }
      events := events + Found(line);
      validBytes := validBytes + n;
      rest := rest[n..];
      n := FindLine(rest);
    }
    assert events + [] == events;
    return LogOk(events, validBytes, rest != []);
  }

  // ---------------------------------------------------------------- the log as a sequence of lines

  lemma ParseStep(read: LineReader, b: seq<Byte>, n: nat)
    requires FirstLine(b, n)
    ensures Parse(read, b) == FollowedBy(read(b[..n]), n, Parse(read, b[n..]))
  {
    assert b[n - 1] == NEWLINE;
    assert FirstLineLength(b) == n;
  }

  /** Complete lines parse independently of what follows them. */
  lemma {:induction false} ParseConcat(read: LineReader, a: seq<Byte>, b: seq<Byte>)
    requires Parse(read, a).LogOk? && !Parse(read, a).partial
    ensures Parse(read, a + b) == Parse(read, b).Shift(Parse(read, a).events, |a|)
    decreases |a|
  {
    if a == [] {
      assert a + b == b;
      ShiftAgain(Parse(read, b), [], 0, [], 0);
    } else {
      var n := FirstLineLength(a);
      var rest := a[n..];
      ConcatStep(read, a, b, n);
      ParseConcat(read, rest, b);
      var line := read(a[..n]);
      ShiftAgain(Parse(read, b), Parse(read, rest).events, |rest|, Found(line), n);
    }
  }

  lemma ConcatStep(read: LineReader, a: seq<Byte>, b: seq<Byte>, n: nat)
    requires FirstLine(a, n)
    ensures Parse(read, a) == FollowedBy(read(a[..n]), n, Parse(read, a[n..]))
    ensures Parse(read, a + b) == FollowedBy(read(a[..n]), n, Parse(read, a[n..] + b))
  {
    var ab := a + b;
    assert ab[..n] == a[..n] && ab[n..] == a[n..] + b;
    ParseStep(read, ab, n);
    ParseStep(read, a, n);
  }

  /** The bytes of the complete lines of a log. */
  ghost function Complete(read: LineReader, b: seq<Byte>): seq<Byte>
    requires Parse(read, b).LogOk?
  {
    b[..Parse(read, b).validBytes]
  }

  /** Truncating a log to its valid bytes keeps its events and drops the tail. */
  lemma {:induction false} ParseTruncated(read: LineReader, b: seq<Byte>)
    requires Parse(read, b).LogOk?
    ensures Parse(read, Complete(read, b)) == LogOk(Parse(read, b).events, Parse(read, b).validBytes, false)
    decreases |b|
  {
    if NEWLINE !in b {
      assert b[..0] == [];
    } else {
      var n := FirstLineLength(b);
      var rest := b[n..];
      CompleteStep(read, b, n);
      ParseStep(read, b, n);
      ParseTruncated(read, rest);
      TruncatedStep(read, b, n, Complete(read, rest));
    }
  }

  lemma PrefixSplit(b: seq<Byte>, n: nat, v: nat)
    requires n + v <= |b|
    ensures b[..n + v] == b[..n] + b[n..][..v]
  {
  }

  lemma CompleteStep(read: LineReader, b: seq<Byte>, n: nat)
    requires Parse(read, b).LogOk?
    requires FirstLine(b, n)
    ensures Parse(read, b[n..]).LogOk? && Complete(read, b) == b[..n] + Complete(read, b[n..])
  {
    ParseStep(read, b, n);
    assert Parse(read, b[n..]).LogOk?;
    var v := Parse(read, b[n..]).validBytes;
    assert Parse(read, b).validBytes == n + v;
    PrefixSplit(b, n, v);
  }

  lemma TruncatedStep(read: LineReader, b: seq<Byte>, n: nat, tail: seq<Byte>)
    requires FirstLine(b, n)
    ensures Parse(read, b[..n] + tail) == FollowedBy(read(b[..n]), n, Parse(read, tail))
  {
    var whole := b[..n] + tail;
    assert whole[..n] == b[..n] && whole[n..] == tail;
    ParseStep(read, whole, n);
  }

  lemma TrimObject(b: seq<Byte>)
    requires IsObject(b)
    ensures Trim(b + [NEWLINE]) == b
  {
    assert (b + [NEWLINE])[..|b|] == b;
    assert TrimRight(b) == b;
  }

  lemma ReadObject(c: Codec, repo: string, e: Event)
    requires c.Faithful() && e.version == CURRENT_VERSION && e.repoId == repo
    ensures Reader(c, repo)(c.Line(e)) == Entry(c.Compacted(e))
  {
    TrimObject(c.encode(e));
    assert ReadLine(c, repo, c.Line(e)) == Entry(c.Compacted(e));
  }

  lemma ParseLine(c: Codec, repo: string, e: Event)
    requires c.Faithful() && e.version == CURRENT_VERSION && e.repoId == repo
    ensures Parse(Reader(c, repo), c.Line(e)) == LogOk([c.Compacted(e)], |c.Line(e)|, false)
  {
    ReadObject(c, repo, e);
    assert IsObject(c.encode(e));
    ParseOne(Reader(c, repo), c.Line(e));
  }

  lemma ParseOne(read: LineReader, line: seq<Byte>)
    requires FirstLine(line, |line|)
    ensures Parse(read, line) == FollowedBy(read(line), |line|, LogOk([], 0, false))
  {
    assert line[..|line|] == line && line[|line|..] == [];
    ParseStep(read, line, |line|);
  }

  /** Appending the line of an event to complete lines appends the event, compacted. */
  lemma ParseAppend(c: Codec, repo: string, a: seq<Byte>, e: Event)
    requires c.Faithful() && e.version == CURRENT_VERSION && e.repoId == repo
    requires Parse(Reader(c, repo), a).LogOk? && !Parse(Reader(c, repo), a).partial
    ensures Parse(Reader(c, repo), a + c.Line(e)) ==
            LogOk(Parse(Reader(c, repo), a).events + [c.Compacted(e)], |a| + |c.Line(e)|, false)
  {
    ParseLine(c, repo, e);
    ParseConcat(Reader(c, repo), a, c.Line(e));
  }

  /** Any torn prefix of an appended line leaves the events as they were. */
  lemma ParseTorn(read: LineReader, c: Codec, a: seq<Byte>, e: Event, torn: nat)
    requires c.Faithful() && torn < |c.Line(e)|
    requires Parse(read, a).LogOk? && !Parse(read, a).partial
    ensures Parse(read, a + c.Line(e)[..torn]) == LogOk(Parse(read, a).events, |a|, torn > 0)
  {
    var tail := c.Line(e)[..torn];
    assert tail == c.encode(e)[..torn];
    assert NEWLINE !in tail;
    ParseConcat(read, a, tail);
    assert Parse(read, tail) == LogOk([], 0, torn > 0);
    assert Parse(read, a).events + [] == Parse(read, a).events;
  }

  lemma {:induction false} TrimsToNothing(b: seq<Byte>)
    ensures TrimLeft(b) == [] <==> forall x :: x in b ==> 9 <= x <= 13 || x == 32
    ensures TrimLeft(b) != [] ==> !IsSpace(TrimLeft(b)[0])
    decreases |b|
  {
    if b != [] {
      assert b[0] in b && forall x :: x in b <==> x == b[0] || x in b[1..];
      if IsSpace(b[0]) { TrimsToNothing(b[1..]); }
    }
  }

  lemma {:induction false} TrimRightStays(b: seq<Byte>)
    requires b != [] && !IsSpace(b[0])
    ensures TrimRight(b) != []
    decreases |b|
  {
    if IsSpace(b[|b| - 1]) { TrimRightStays(b[..|b| - 1]); }
  }

  /** A line is blank exactly when it is made of white space. */
  lemma BlankExactly(b: seq<Byte>)
    ensures Trim(b) == [] <==> forall x :: x in b ==> 9 <= x <= 13 || x == 32
  {
    TrimsToNothing(b);
    if TrimLeft(b) != [] { TrimRightStays(TrimLeft(b)); }
  }

  /** What the next complete line does to a log: white space is skipped, an event of this repository and version
      counts, one of another version makes the log incompatible, and anything else corrupts it. */
  lemma LineDecides(c: Codec, repo: string, a: seq<Byte>, line: seq<Byte>, rest: seq<Byte>)
    requires Parse(Reader(c, repo), a).LogOk? && !Parse(Reader(c, repo), a).partial && FirstLine(line, |line|)
    ensures var read, text := Reader(c, repo), c.decode(Trim(line));
            var r, events, n := Parse(read, a + (line + rest)), Parse(read, a).events, |a| + |line|;
            if forall x :: x in line ==> 9 <= x <= 13 || x == 32 then r == Parse(read, rest).Shift(events, n)
            else if text.None? then r.LogCorrupt?
            else if text.value.version != CURRENT_VERSION then r.LogIncompatible?
            else if text.value.repoId != repo then r.LogCorrupt?
            else r == Parse(read, rest).Shift(events + [text.value], n)
  {
    hide Parse, Trim;
    var read := Reader(c, repo);
    var both := line + rest;
    BlankExactly(line);
    ParseConcat(read, a, both);
    assert both[..|line|] == line && both[|line|..] == rest;
    assert FirstLine(both, |line|);
    ParseStep(read, both, |line|);
    assert read(line) == ReadLine(c, repo, line);
    ShiftAgain(Parse(read, rest), Found(read(line)), |line|, Parse(read, a).events, |a|);
    assert Parse(read, a).events + [] == Parse(read, a).events;
  }

  /** Every event that is read is of the current version. */
  lemma {:induction false} ParsedAreCurrent(c: Codec, repo: string, b: seq<Byte>)
    ensures var r := Parse(Reader(c, repo), b);
            r.LogOk? ==> forall k :: 0 <= k < |r.events| ==> r.events[k].version == CURRENT_VERSION
    decreases |b|
  {
    if NEWLINE in b {
      var n := FirstLineLength(b);
      ParsedAreCurrent(c, repo, b[n..]);
      assert Parse(Reader(c, repo), b) == FollowedBy(Reader(c, repo)(b[..n]), n, Parse(Reader(c, repo), b[n..]));
    }
  }

  // ---------------------------------------------------------------- event sequence numbers

  datatype Scan = Last(sequence: nat) | Gap | Unsupported

  function ScanFrom(events: seq<Event>, last: nat, first: bool): Scan {
    if events == [] then Last(last)
    else if events[0].version != CURRENT_VERSION then Unsupported
    else if first && events[0].kind == CHECKPOINT_KIND then
      if events[0].sequence == 0 then Gap else ScanFrom(events[1..], events[0].sequence, false)
    else if events[0].sequence != last + 1 then Gap
    else ScanFrom(events[1..], last + 1, false)
  }

  /** The validator of a log against the revision of its snapshot. */
  function ValidateSequence(revision: nat, events: seq<Event>): Verdict {
    match ScanFrom(events, 0, true)
    case Last(n) => if n == revision then Fine else Invalid
    case Gap => Invalid
    case Unsupported => Incompatible
  }

  function LastSequence(events: seq<Event>): nat {
    if events == [] then 0 else events[|events| - 1].sequence
  }

  /** The log agrees with the revision: consecutive sequence numbers, starting at one
      or at a checkpoint, and ending at the revision. */
  predicate Contiguous(revision: nat, events: seq<Event>) {
    && (forall i :: 0 <= i < |events| ==> events[i].version == CURRENT_VERSION)
    && (events != [] ==>
          if events[0].kind == CHECKPOINT_KIND then events[0].sequence > 0 else events[0].sequence == 1)
    && (forall i :: 0 <= i < |events| ==> events[i].sequence == events[0].sequence + i)
    && revision == LastSequence(events)
  }

  lemma {:induction false} ScanConsecutive(events: seq<Event>, last: nat)
    ensures ScanFrom(events, last, false).Last? <==>
            forall i :: 0 <= i < |events| ==>
              events[i].version == CURRENT_VERSION && events[i].sequence == last + 1 + i
    ensures ScanFrom(events, last, false).Last? ==>
              ScanFrom(events, last, false).sequence == last + |events|
  {
    if events != [] {
      ScanConsecutive(events[1..], last + 1);
      assert forall i :: 1 <= i < |events| ==> events[i] == events[1..][i - 1];
    }
  }

  /** The validator accepts exactly the logs that agree with the revision. */
  lemma SequenceAccepted(revision: nat, events: seq<Event>)
    ensures ValidateSequence(revision, events) == Fine <==> Contiguous(revision, events)
  {
    if events != [] {
      var e, rest := events[0], events[1..];
      assert forall i :: 0 <= i < |rest| ==> rest[i] == events[i + 1];
      assert forall i :: 1 <= i < |events| ==> events[i] == rest[i - 1];
      ScanConsecutive(rest, e.sequence);
    }
  }

  /** Appending the next event moves the agreed revision by exactly one. */
  lemma ContiguousExtend(revision: nat, events: seq<Event>, e: Event)
    requires Contiguous(revision, events)
    requires e.version == CURRENT_VERSION && e.sequence == revision + 1
    ensures Contiguous(revision + 1, events + [e])
  {
    var es := events + [e];
    forall i | 0 <= i < |es| ensures es[i].sequence == es[0].sequence + i { }
  }

  lemma {:induction false} ScanSupported(events: seq<Event>, last: nat, first: bool)
    requires forall k :: 0 <= k < |events| ==> events[k].version == CURRENT_VERSION
    ensures !ScanFrom(events, last, first).Unsupported?
    decreases |events|
  {
    if events != [] {
      ScanSupported(events[1..], events[0].sequence, false);
      ScanSupported(events[1..], last + 1, false);
    }
  }

  lemma CurrentIsSupported(revision: nat, events: seq<Event>)
    requires forall k :: 0 <= k < |events| ==> events[k].version == CURRENT_VERSION
    ensures ValidateSequence(revision, events) != Incompatible
  {
    ScanSupported(events, 0, true);
  }
}
