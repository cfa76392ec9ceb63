// The hash-chained audit log (audit/logger.py): a file writer that finds its place by scanning
// the file backwards, a stdout writer that remembers it, and the verifier that re-walks a log.
module Audit {
  import opened Wrappers
  import opened Documents
  import H = HashChain

  // JSON text of an object, its parser, and the (keyed) digest of an object.
  datatype Codec = Codec(dump: Dict -> string, load: string -> Option<Json>, digest: Dict -> string)

  // What str.splitlines breaks at; '\r\n' counts once.
  predicate IsBreak(c: char) {
    c in "\n\r\U{0B}\U{0C}\U{1C}\U{1D}\U{1E}\U{85}\U{2028}\U{2029}"
  }

  // json.dumps escapes control and non-ASCII characters, and json.loads reads back what it wrote.
  ghost predicate Faithful(c: Codec) {
    forall e: Dict :: c.load(c.dump(e)) == Some(Obj(e)) && c.dump(e) != ""
      && forall i | 0 <= i < |c.dump(e)| :: !IsBreak(c.dump(e)[i])
  }

  const PREVIOUS := "previous_event_hash"
  const SEQUENCE := "sequence"
  const HASH := "event_hash"

  function Member(d: Dict, key: string): Json {
    if key in d then d[key] else Null
  }

  function EventHash(c: Codec, event: Dict): string {
    c.digest(event - {HASH})
  }

  function OrNull(hash: Option<string>): Json {
    if hash.Some? then Str(hash.value) else Null
  }

  function WithHash(c: Codec, event: Dict, previous: Option<string>, sequence: int): Dict {
    var placed := event[PREVIOUS := OrNull(previous)][SEQUENCE := Num(sequence)];
    placed[HASH := Str(EventHash(c, placed))]
  }

  // -------- The simple log: each event chained to the one before --------

  function Chained(c: Codec, events: seq<Dict>): (log: seq<Dict>)
    ensures |log| == |events|
  {
    if events == [] then []
    else
      var n := |events| - 1;
      var log := Chained(c, events[..n]);
      log + [WithHash(c, events[n], LastHash(c, log), n + 1)]
  }

  function LastHash(c: Codec, log: seq<Dict>): Option<string> {
    if log == [] then None else Some(EventHash(c, log[|log| - 1]))
  }

  function Text(c: Codec, log: seq<Dict>): string {
    if log == [] then "" else Text(c, log[..|log| - 1]) + c.dump(log[|log| - 1]) + "\n"
  }

  lemma ChainedGrows(c: Codec, events: seq<Dict>, event: Dict)
    ensures var log := Chained(c, events); var next := WithHash(c, event, LastHash(c, log), |events| + 1);
      && Chained(c, events + [event]) == log + [next]
      && Text(c, log + [next]) == Text(c, log) + c.dump(next) + "\n"
  {
    assert (events + [event])[..|events|] == events;
    var log := Chained(c, events);
    var next := WithHash(c, event, LastHash(c, log), |events| + 1);
    assert (log + [next])[..|log|] == log;
  }

  // The stored hash is the event's hash, and the sequence number its position.
  lemma {:induction false} ChainedStoresHash(c: Codec, events: seq<Dict>, i: nat)
    requires i < |events|
    ensures var log := Chained(c, events);
      && HASH in log[i] && log[i][HASH] == Str(EventHash(c, log[i]))
      && SEQUENCE in log[i] && log[i][SEQUENCE] == Num(i + 1)
      && PREVIOUS in log[i] && log[i][PREVIOUS] == if i == 0 then Null else Str(EventHash(c, log[i - 1]))
  {
    hide WithHash, EventHash;
    var n := |events| - 1;
    var log := Chained(c, events[..n]);
    if i < n {
      ChainedStoresHash(c, events[..n], i);
    } else {
      HashIgnoresItself(c, events[n], LastHash(c, log), n + 1);
    }
  }

  lemma HashIgnoresItself(c: Codec, event: Dict, previous: Option<string>, sequence: int)
    ensures var e := WithHash(c, event, previous, sequence);
      && HASH in e && e[HASH] == Str(EventHash(c, e)) && SEQUENCE in e && e[SEQUENCE] == Num(sequence)
      && PREVIOUS in e && e[PREVIOUS] == OrNull(previous)
  {
    assert HASH != SEQUENCE && HASH != PREVIOUS && SEQUENCE != PREVIOUS by {
      assert |HASH| != |SEQUENCE| && |HASH| != |PREVIOUS| && |SEQUENCE| != |PREVIOUS|;
    }
    var placed := event[PREVIOUS := OrNull(previous)][SEQUENCE := Num(sequence)];
    assert WithHash(c, event, previous, sequence) - {HASH} == placed - {HASH};
  }

  // An event without the three fields of the chain.
  function Carried(event: Dict): Dict {
    event - {PREVIOUS, SEQUENCE, HASH}
  }

  // Chaining adds those fields and loses nothing else of any event.
  lemma {:induction false} ChainedKeepsEvents(c: Codec, events: seq<Dict>, i: nat)
    requires i < |events|
    ensures Carried(Chained(c, events)[i]) == Carried(events[i])
  {
    var n := |events| - 1;
    if i < n { ChainedKeepsEvents(c, events[..n], i); }
  }

  // -------- The backward scan --------

  predicate NoNewline(s: string) {
    forall i | 0 <= i < |s| :: s[i] != '\n'
  }

  predicate OnlyNewlines(s: string, start: nat) {
    forall i | start <= i < |s| :: s[i] == '\n'
  }

  // `line` is what stands between the last newlines of `text`: the last line that is not empty.
  ghost predicate IsLastLine(text: string, line: string) {
    exists start: nat, end: nat :: LastLineAt(text, line, start, end)
  }

  predicate LastLineAt(text: string, line: string, start: nat, end: nat) {
    && start <= end <= |text| && line == text[start..end] && NoNewline(line) && OnlyNewlines(text, end)
    && (start > 0 ==> text[start - 1] == '\n') && (line == "" ==> start == 0)
  }

  function Reversed(s: string): (r: string)
    ensures |r| == |s| && forall i | 0 <= i < |s| :: r[i] == s[|s| - 1 - i]
  {
    if s == "" then "" else [s[|s| - 1]] + Reversed(s[..|s| - 1])
  }

  method LastLine(text: string) returns (line: string)
    ensures IsLastLine(text, line)
  {
    if |text| == 0 {
      assert LastLineAt(text, "", 0, 0);
      return "";
    }
    var buffer := "";
    var position := |text| - 1;
    ghost var end := |text|;
    while position >= 0
      invariant -1 <= position < |text|
      invariant position < end <= |text| && OnlyNewlines(text, end)
      invariant |buffer| == end - position - 1
      invariant forall i | 0 <= i < |buffer| :: buffer[i] == text[end - 1 - i] && buffer[i] != '\n'
    {
      var c := text[position];
      if c == '\n' && buffer != "" { break; }
      if c != '\n' { buffer := buffer + [c]; } else { end := position; }
      position := position - 1;
    }
    line := Reversed(buffer);
    assert line == text[position + 1..end];
    assert LastLineAt(text, line, position + 1, end);
  }

  lemma LastLineOfText(text: string, dumped: string, line: string)
    requires dumped != "" && NoNewline(dumped) && (text != "" ==> text[|text| - 1] == '\n')
    requires IsLastLine(text + dumped + "\n", line)
    ensures line == dumped
  {
    var whole := text + dumped + "\n";
    var start: nat, end: nat :| LastLineAt(whole, line, start, end);
    var n := |text| + |dumped|;
    assert whole[n - 1] == dumped[|dumped| - 1] && whole[n] == '\n';
    assert end >= n;
    assert forall i | start <= i < end :: whole[i] == line[i - start];
    assert end == n && start >= |text| by {
      if text != "" { assert whole[|text| - 1] == text[|text| - 1]; }
    }
    assert start == |text| by { assert forall i | |text| <= i < n :: whole[i] == dumped[i - |text|]; }
    assert whole[|text|..n] == dumped;
  }

  // -------- The writers --------

  // A log file; `events` is what has been logged to it, by however many loggers.
  class LogFile {
    var text: string
    ghost var events: seq<Dict>

    constructor ()
      ensures text == "" && events == []
    {
      text, events := "", [];
    }

    ghost predicate Holds(c: Codec)
      reads this
    {
      text == Text(c, Chained(c, events))
    }
  }

  lemma TextEndsLine(c: Codec, log: seq<Dict>)
    ensures Text(c, log) != "" ==> Text(c, log)[|Text(c, log)| - 1] == '\n'
  {
  }

  class FileAuditLogger {
    const codec: Codec
    const file: LogFile

    constructor (codec: Codec, file: LogFile)
      ensures this.codec == codec && this.file == file
    {
      this.codec, this.file := codec, file;
    }

    // Hash and sequence number of the last event, read back from the file.
    method PreviousChainState() returns (previous: Option<string>, sequence: int)
      requires Faithful(codec) && file.Holds(codec)
      ensures previous == LastHash(codec, Chained(codec, file.events)) && sequence == |file.events|
    {
      var line := LastLine(file.text);
      LastEventIsFound(codec, file.events, line);
      if line == "" { return None, 0; }
      var parsed := codec.load(line);
      if parsed.None? || !parsed.value.Obj? { return None, 0; }
      var event := parsed.value.fields;
      previous := if Member(event, HASH).Str? then Some(event[HASH].s) else None;
      sequence := match Member(event, SEQUENCE) case Num(n) => n case Bool(b) => (if b then 1 else 0) case _ => 0;
    }

    // Reading the state and appending happen under the file lock.
    method Write(event: Dict)
      requires Faithful(codec) && file.Holds(codec)
      modifies file
      ensures file.Holds(codec) && file.events == old(file.events) + [event]
    {
      hide WithHash, Text, Chained, LastHash, Faithful;
      var previous, sequence := PreviousChainState();
      var hashed := WithHash(codec, event, previous, sequence + 1);
      ChainedGrows(codec, file.events, event);
      file.text := file.text + codec.dump(hashed) + "\n";
      file.events := file.events + [event];
    }
  }

  lemma LastEventIsFound(c: Codec, events: seq<Dict>, line: string)
    requires Faithful(c) && IsLastLine(Text(c, Chained(c, events)), line)
    ensures events == [] <==> line == ""
    ensures events != [] ==>
      var last := Chained(c, events)[|events| - 1];
      && c.load(line) == Some(Obj(last)) && SEQUENCE in last && last[SEQUENCE] == Num(|events|)
      && HASH in last && last[HASH] == Str(EventHash(c, last))
  {
    if events != [] {
      var n := |events| - 1;
      var log := Chained(c, events);
      ChainedStoresHash(c, events, n);
      TextEndsLine(c, log[..n]);
      var dumped := c.dump(log[n]);
      assert NoNewline(dumped) by { assert forall i | 0 <= i < |dumped| :: !IsBreak(dumped[i]); }
      LastLineOfText(Text(c, log[..n]), dumped, line);
    }
  }

  class StdoutAuditLogger {
    const codec: Codec
    var stdout: string
    var previous: Option<string>
    var sequence: int
    ghost var events: seq<Dict>

    ghost predicate Valid()
      reads this
    {
      var log := Chained(codec, events);
      stdout == Text(codec, log) && previous == LastHash(codec, log) && sequence == |events|
    }

    constructor (codec: Codec)
      ensures Valid() && this.codec == codec && events == []
    {
      this.codec := codec;
      stdout, previous, sequence, events := "", None, 0, [];
    }

    method Write(event: Dict)
      requires Valid()
      modifies this
      ensures Valid() && events == old(events) + [event]
    {
      hide WithHash, Text, Chained, EventHash;
      var hashed := WithHash(codec, event, previous, sequence + 1);
      ChainedGrows(codec, events, event);
      HashIgnoresItself(codec, event, previous, sequence + 1);
      stdout := stdout + codec.dump(hashed) + "\n";
      previous, sequence := Some(hashed[HASH].s), hashed[SEQUENCE].n;
      events := events + [event];
    }
  }

  // Both writers put out the same text, and the state one rebuilds is the state the other keeps.
  method WriteBoth(f: FileAuditLogger, s: StdoutAuditLogger, log: seq<Dict>)
    returns (previous: Option<string>, sequence: int)
    requires f.codec == s.codec && Faithful(f.codec) && f.file.Holds(f.codec) && s.Valid() && f.file.events == s.events
    modifies f.file, s
    ensures f.file.Holds(f.codec) && s.Valid() && f.file.events == s.events == old(s.events) + log
    ensures f.file.text == s.stdout && previous == s.previous && sequence == s.sequence
  {
    hide Text, Chained, LastHash, Faithful;
    for i := 0 to |log|
      invariant f.file.Holds(f.codec) && s.Valid() && f.file.events == s.events == old(s.events) + log[..i]
    {
      f.Write(log[i]);
      s.Write(log[i]);
      assert log[..i + 1] == log[..i] + [log[i]];
    }
    assert log[..|log|] == log;
    previous, sequence := f.PreviousChainState();
  }

  // -------- The verifier --------

  function FirstBreak(text: string): (n: nat)
    ensures n <= |text| && (n < |text| ==> IsBreak(text[n])) && forall i | 0 <= i < n :: !IsBreak(text[i])
  {
    if text == "" || IsBreak(text[0]) then 0 else 1 + FirstBreak(text[1..])
  }

  function BreakWidth(text: string): (width: nat)
    requires text != ""
    ensures 1 <= width <= |text|
  {
    if "\r\n" <= text then 2 else 1
  }

  function SplitLines(text: string): seq<string> {
    if text == "" then []
    else
      var n := FirstBreak(text);
      if n == |text| then [text]
      else [text[..n]] + SplitLines(text[n + BreakWidth(text[n..])..])
  }

  datatype Problem = InvalidJson | NotAnObject | PreviousMismatch | SequenceMismatch | HashMismatch

  datatype Report = Verified(events: nat) | Broken(line: nat, problem: Problem)

  function EventAt(c: Codec, lines: seq<string>, i: nat): Dict
    requires i < |lines|
  {
    var parsed := c.load(lines[i]);
    if parsed.Some? && parsed.value.Obj? then parsed.value.fields else map[]
  }

  // How many of the first `n` events carry a sequence number.
  function Numbered(c: Codec, lines: seq<string>, n: nat): nat
    requires n <= |lines|
  {
    if n == 0 then 0 else Numbered(c, lines, n - 1) + if SEQUENCE in EventAt(c, lines, n - 1) then 1 else 0
  }

  // Python compares true and 1 as equal.
  predicate IsNumber(value: Json, n: int) {
    value == Num(n) || (value == Bool(true) && n == 1)
  }

  predicate LineOk(c: Codec, lines: seq<string>, i: nat)
    requires i < |lines|
  {
    var event := EventAt(c, lines, i);
    && c.load(lines[i]) == Some(Obj(event))
    && Member(event, PREVIOUS) == (if i == 0 then Null else Str(EventHash(c, EventAt(c, lines, i - 1))))
    && (SEQUENCE in event ==> IsNumber(event[SEQUENCE], Numbered(c, lines, i + 1)))
    && Member(event, HASH) == Str(EventHash(c, event))
  }

  predicate ProblemAt(c: Codec, lines: seq<string>, i: nat, problem: Problem)
    requires i < |lines|
  {
    var event := EventAt(c, lines, i);
    var follows := Member(event, PREVIOUS) == (if i == 0 then Null else Str(EventHash(c, EventAt(c, lines, i - 1))));
    var numbered := SEQUENCE in event ==> IsNumber(event[SEQUENCE], Numbered(c, lines, i + 1));
    match problem
    case InvalidJson => c.load(lines[i]).None?
    case NotAnObject => c.load(lines[i]).Some? && !c.load(lines[i]).value.Obj?
    case PreviousMismatch => c.load(lines[i]) == Some(Obj(event)) && !follows
    case SequenceMismatch => c.load(lines[i]) == Some(Obj(event)) && follows && !numbered
    case HashMismatch => c.load(lines[i]) == Some(Obj(event)) && follows && numbered
                         && Member(event, HASH) != Str(EventHash(c, event))
  }

  method VerifyHashChain(c: Codec, text: string) returns (r: Report)
    ensures var lines := SplitLines(text);
      match r
      case Verified(n) => n == |lines| && forall i | 0 <= i < |lines| :: LineOk(c, lines, i)
      case Broken(n, p) =>
        1 <= n <= |lines| && !LineOk(c, lines, n - 1) && ProblemAt(c, lines, n - 1, p)
        && forall i | 0 <= i < n - 1 :: LineOk(c, lines, i)
  {
    hide SplitLines, EventHash;
    var previous: Option<string> := None;
    var expectedSequence := 0;
    var lines := SplitLines(text);
    for i := 0 to |lines|
      invariant forall j | 0 <= j < i :: LineOk(c, lines, j)
      invariant previous == if i == 0 then None else Some(EventHash(c, EventAt(c, lines, i - 1)))
      invariant expectedSequence == Numbered(c, lines, i)
    {
      var parsed := c.load(lines[i]);
      if parsed.None? { return Broken(i + 1, InvalidJson); }
      if !parsed.value.Obj? { return Broken(i + 1, NotAnObject); }
      var event := parsed.value.fields;
      if Member(event, PREVIOUS) != OrNull(previous) { return Broken(i + 1, PreviousMismatch); }
      if SEQUENCE in event {
        expectedSequence := expectedSequence + 1;
        if !IsNumber(event[SEQUENCE], expectedSequence) { return Broken(i + 1, SequenceMismatch); }
      }
      var expected := EventHash(c, event);
      if Member(event, HASH) != Str(expected) { return Broken(i + 1, HashMismatch); }
      previous := Some(expected);
    }
    r := Verified(|lines|);
  }

  function Dumped(c: Codec, log: seq<Dict>): (lines: seq<string>)
    ensures |lines| == |log| && forall i | 0 <= i < |log| :: lines[i] == c.dump(log[i])
  {
    seq(|log|, i requires 0 <= i < |log| => c.dump(log[i]))
  }

  lemma {:induction false} TextFromFront(c: Codec, log: seq<Dict>)
    requires log != []
    ensures Text(c, log) == c.dump(log[0]) + "\n" + Text(c, log[1..])
  {
    var n := |log| - 1;
    if n > 0 {
      TextFromFront(c, log[..n]);
      assert log[..n][1..] == log[1..][..n - 1];
    }
  }

  lemma FirstBreakAt(line: string, rest: string)
    requires forall i | 0 <= i < |line| :: !IsBreak(line[i])
    ensures FirstBreak(line + "\n" + rest) == |line|
  {
    var whole := line + "\n" + rest;
    assert whole[|line|] == '\n';
    assert forall i | 0 <= i < |line| :: whole[i] == line[i];
  }

  lemma SplitOne(line: string, rest: string)
    requires forall i | 0 <= i < |line| :: !IsBreak(line[i])
    ensures SplitLines(line + "\n" + rest) == [line] + SplitLines(rest)
  {
    FirstBreakAt(line, rest);
    var whole := line + "\n" + rest;
    assert whole[|line|..] == "\n" + rest;
    assert whole[..|line|] == line && whole[|line| + 1..] == rest;
  }

  lemma {:induction false} TextSplitsIntoEvents(c: Codec, log: seq<Dict>)
    requires Faithful(c)
    ensures SplitLines(Text(c, log)) == Dumped(c, log)
  {
    if log != [] {
      hide SplitLines, Text;
      var line, rest := c.dump(log[0]), Text(c, log[1..]);
      TextFromFront(c, log);
      assert forall i | 0 <= i < |line| :: !IsBreak(line[i]);
      SplitOne(line, rest);
      TextSplitsIntoEvents(c, log[1..]);
      assert Dumped(c, log) == [line] + Dumped(c, log[1..]);
    }
  }

  lemma {:induction false} AllNumbered(c: Codec, log: seq<Dict>, n: nat)
    requires Faithful(c) && n <= |log| && forall i | 0 <= i < |log| :: SEQUENCE in log[i]
    ensures Numbered(c, Dumped(c, log), n) == n
  {
    if n > 0 { AllNumbered(c, log, n - 1); }
  }

  // Whatever is written, the verifier accepts the log.
  lemma WrittenLogVerifies(c: Codec, events: seq<Dict>)
    requires Faithful(c)
    ensures var lines := SplitLines(Text(c, Chained(c, events)));
      |lines| == |events| && forall i | 0 <= i < |lines| :: LineOk(c, lines, i)
  {
    var log := Chained(c, events);
    TextSplitsIntoEvents(c, log);
    var lines := Dumped(c, log);
    forall i | 0 <= i < |log| ensures SEQUENCE in log[i] { ChainedStoresHash(c, events, i); }
    forall i | 0 <= i < |lines| ensures LineOk(c, lines, i) {
      AllNumbered(c, log, i + 1);
      WrittenLineVerifies(c, events, i);
    }
  }

  lemma DumpedEvent(c: Codec, log: seq<Dict>, i: nat)
    requires Faithful(c) && i < |log|
    ensures c.load(Dumped(c, log)[i]) == Some(Obj(log[i])) && EventAt(c, Dumped(c, log), i) == log[i]
  {
  }

  lemma WrittenLineVerifies(c: Codec, events: seq<Dict>, i: nat)
    requires Faithful(c) && i < |events| && Numbered(c, Dumped(c, Chained(c, events)), i + 1) == i + 1
    ensures LineOk(c, Dumped(c, Chained(c, events)), i)
  {
    hide Faithful, EventHash, EventAt, Numbered, Chained;
    ChainedStoresHash(c, events, i);
    DumpedEvent(c, Chained(c, events), i);
    if i > 0 { DumpedEvent(c, Chained(c, events), i - 1); }
  }

  lemma CarriedMembers(event: Dict, key: string)
    requires key !in {PREVIOUS, SEQUENCE, HASH}
    ensures key in Carried(event) <==> key in event
    ensures key in event ==> Carried(event)[key] == event[key]
  {
  }

  // What was logged can be read back: line by line, every member of every event but the chain's own.
  lemma LoggedEventsReadBack(c: Codec, events: seq<Dict>, i: nat, key: string)
    requires Faithful(c) && i < |events| && key !in {PREVIOUS, SEQUENCE, HASH}
    ensures var lines := SplitLines(Text(c, Chained(c, events)));
      && |lines| == |events|
      && c.load(lines[i]).Some? && c.load(lines[i]).value.Obj?
      && (key in c.load(lines[i]).value.fields <==> key in events[i])
      && (key in events[i] ==> c.load(lines[i]).value.fields[key] == events[i][key])
  {
    hide Faithful, Chained, SplitLines, Text, Carried;
    var log := Chained(c, events);
    TextSplitsIntoEvents(c, log);
    DumpedEvent(c, log, i);
    ChainedKeepsEvents(c, events, i);
    CarriedMembers(log[i], key);
    CarriedMembers(events[i], key);
  }

  // In an accepted log whose events are all numbered, they are numbered from one on.
  lemma AcceptedEventsAreNumbered(c: Codec, lines: seq<string>, i: nat)
    requires i < |lines| && LineOk(c, lines, i)
    requires forall j | 0 <= j < |lines| :: SEQUENCE in EventAt(c, lines, j)
    ensures EventAt(c, lines, i)[SEQUENCE] == Num(i + 1)
         || (i == 0 && EventAt(c, lines, i)[SEQUENCE] == Bool(true))
  {
    hide EventAt, EventHash, Numbered, LineOk;
    CountedUpTo(c, lines, i + 1);
    LineIsNumbered(c, lines, i);
  }

  lemma LineIsNumbered(c: Codec, lines: seq<string>, i: nat)
    requires i < |lines| && LineOk(c, lines, i) && SEQUENCE in EventAt(c, lines, i)
    ensures IsNumber(EventAt(c, lines, i)[SEQUENCE], Numbered(c, lines, i + 1))
  {
    hide EventAt, EventHash, Numbered;
  }

  lemma {:induction false} CountedUpTo(c: Codec, lines: seq<string>, n: nat)
    requires n <= |lines| && forall j | 0 <= j < |lines| :: SEQUENCE in EventAt(c, lines, j)
    ensures Numbered(c, lines, n) == n
  {
    if n > 0 { CountedUpTo(c, lines, n - 1); }
  }

  // What str.splitlines takes for the end of a line.
  predicate IsLineEnd(s: string) {
    || (|s| == 2 && s[0] == '\r' && s[1] == '\n')
    || (|s| == 1 && (s[0] in {'\n', '\r', '\U{85}', '\U{2028}', '\U{2029}'}
                     || '\U{0B}' <= s[0] <= '\U{0C}' || '\U{1C}' <= s[0] <= '\U{1E}'))
  }

  function Interleaved(lines: seq<string>, ends: seq<string>): string
    requires |ends| <= |lines| <= |ends| + 1
  {
    if lines == [] then ""
    else if ends == [] then lines[0]
    else lines[0] + ends[0] + Interleaved(lines[1..], ends[1..])
  }

  predicate HasNoEnd(line: string) {
    forall j | 0 <= j < |line| :: !IsLineEnd([line[j]])
  }

  // Lines with their ends: no line holds an end; only the last may lack one, and then it is not empty.
  predicate AreLines(lines: seq<string>, ends: seq<string>) {
    && |ends| <= |lines| <= |ends| + 1
    && (forall i | 0 <= i < |ends| :: IsLineEnd(ends[i]))
    && (forall i | 0 <= i < |lines| :: HasNoEnd(lines[i]))
    && (|lines| == |ends| + 1 ==> lines[|ends|] != "")
  }

  lemma EndsAreBreaks(c: char)
    ensures IsLineEnd([c]) <==> IsBreak(c)
  {
  }

  // The text is its lines and their ends.
  lemma {:induction false} LinesAndEnds(text: string) returns (ends: seq<string>)
    ensures AreLines(SplitLines(text), ends) && Interleaved(SplitLines(text), ends) == text
    decreases |text|
  {
    hide IsLineEnd, HasNoEnd, IsBreak, AreLines, FirstBreak, Interleaved, BreakWidth;
    ends := [];
    if text == "" {
      NoLines();
    } else {
      var n := FirstBreak(text);
      FirstLineHasNoEnd(text, n);
      if n == |text| {
        assert text[..n] == text;
        OneLine(text);
      } else {
        var width := BreakWidth(text[n..]);
        EndOfFirstLine(text, n);
        var more := LinesAndEnds(text[n + width..]);
        ends := [text[n..n + width]] + more;
        OneMoreLine(text[..n], text[n..n + width], SplitLines(text[n + width..]), more);
        assert text == text[..n] + text[n..n + width] + text[n + width..];
      }
    }
  }

  lemma NoLines()
    ensures AreLines([], []) && Interleaved([], []) == ""
  {
  }

  lemma OneLine(text: string)
    requires text != "" && HasNoEnd(text)
    ensures AreLines([text], []) && Interleaved([text], []) == text
  {
    hide HasNoEnd;
  }

  lemma FirstLineHasNoEnd(text: string, n: nat)
    requires n == FirstBreak(text)
    ensures HasNoEnd(text[..n])
  {
    hide IsLineEnd, IsBreak;
    forall j | 0 <= j < n ensures !IsLineEnd([text[..n][j]]) { EndsAreBreaks(text[j]); }
  }

  lemma EndOfFirstLine(text: string, n: nat)
    requires n == FirstBreak(text) < |text|
    ensures IsLineEnd(text[n..n + BreakWidth(text[n..])])
  {
    hide IsBreak;
    if "\r\n" <= text[n..] {
    } else {
      EndsAreBreaks(text[n]);
      assert text[n..n + 1] == [text[n]];
    }
  }

  lemma OneMoreLine(line: string, end: string, lines: seq<string>, ends: seq<string>)
    requires HasNoEnd(line) && IsLineEnd(end) && AreLines(lines, ends)
    ensures AreLines([line] + lines, [end] + ends)
    ensures Interleaved([line] + lines, [end] + ends) == line + end + Interleaved(lines, ends)
  {
    hide HasNoEnd, IsLineEnd;
    assert ([line] + lines)[1..] == lines && ([end] + ends)[1..] == ends;
  }

  // -------- What the last hash commits to --------

  function Body(c: Codec, lines: seq<string>, i: nat): Dict
    requires i < |lines|
  {
    EventAt(c, lines, i) - {HASH}
  }

  function Bodies(c: Codec, lines: seq<string>): (bodies: seq<Dict>)
    ensures |bodies| == |lines| && forall i | 0 <= i < |lines| :: bodies[i] == Body(c, lines, i)
  {
    seq(|lines|, i requires 0 <= i < |lines| => Body(c, lines, i))
  }

  function Link(body: Dict): Option<string> {
    if Member(body, PREVIOUS).Str? then Some(body[PREVIOUS].s) else None
  }

  lemma BodiesAreLinked(c: Codec, lines: seq<string>)
    requires forall i | 0 <= i < |lines| :: LineOk(c, lines, i)
    ensures H.Linked(Bodies(c, lines), |lines|, Link, c.digest)
  {
    assert |PREVIOUS| != |HASH|;
    forall i | 0 <= i < |lines| ensures Link(Bodies(c, lines)[i]) == H.Before(Bodies(c, lines), i, c.digest) {
      assert LineOk(c, lines, i);
      assert Member(Body(c, lines, i), PREVIOUS) == Member(EventAt(c, lines, i), PREVIOUS);
    }
  }

  // With a collision-free digest, two logs the verifier accepts under one key and that end in the
  // same hash have the same events throughout.
  lemma EqualEndsEqualLogs(c: Codec, a: string, b: string)
    requires H.Injective(c.digest)
    requires var lines := SplitLines(a); lines != [] && forall i | 0 <= i < |lines| :: LineOk(c, lines, i)
    requires var lines := SplitLines(b); lines != [] && forall i | 0 <= i < |lines| :: LineOk(c, lines, i)
    requires var x, y := SplitLines(a), SplitLines(b);
      Member(EventAt(c, x, |x| - 1), HASH) == Member(EventAt(c, y, |y| - 1), HASH)
    ensures var x, y := SplitLines(a), SplitLines(b);
      |x| == |y| && forall i | 0 <= i < |x| :: EventAt(c, x, i) == EventAt(c, y, i)
  {
    hide SplitLines, LineOk, H.Injective, H.Linked, EventAt;
    var x, y := SplitLines(a), SplitLines(b);
    assert LineOk(c, x, |x| - 1) && LineOk(c, y, |y| - 1);
    BodiesAreLinked(c, x);
    BodiesAreLinked(c, y);
    SameHashSameBody(c, x, |x| - 1, y, |y| - 1);
    H.LastDetermines(Bodies(c, x), |x|, Bodies(c, y), |y|, Link, c.digest);
    forall i | 0 <= i < |x| ensures EventAt(c, x, i) == EventAt(c, y, i) {
      assert LineOk(c, x, i) && LineOk(c, y, i) && Bodies(c, x)[i] == Bodies(c, y)[i];
      SameBodySameEvent(c, x, y, i);
    }
  }

  // So two runs of the writers that end in the same hash logged the same events.
  lemma EqualEndsEqualEvents(c: Codec, a: seq<Dict>, b: seq<Dict>)
    requires Faithful(c) && H.Injective(c.digest) && a != [] && b != []
    requires LastHash(c, Chained(c, a)) == LastHash(c, Chained(c, b))
    ensures |a| == |b|
    ensures forall i | 0 <= i < |a| :: Carried(a[i]) == Carried(b[i])
  {
    hide Faithful, Chained, H.Injective, LastHash, Carried;
    EqualEndsEqualChains(c, a, b);
    forall i | 0 <= i < |a| ensures Carried(a[i]) == Carried(b[i]) {
      ChainedKeepsEvents(c, a, i);
      ChainedKeepsEvents(c, b, i);
    }
  }

  lemma EqualEndsEqualChains(c: Codec, a: seq<Dict>, b: seq<Dict>)
    requires Faithful(c) && H.Injective(c.digest) && a != [] && b != []
    requires LastHash(c, Chained(c, a)) == LastHash(c, Chained(c, b))
    ensures Chained(c, a) == Chained(c, b)
  {
    hide Faithful, SplitLines, Text, Chained, LineOk, EventAt, H.Injective, LastHash;
    var x, y := Chained(c, a), Chained(c, b);
    WrittenLog(c, a);
    WrittenLog(c, b);
    LastHashIsStored(c, a);
    LastHashIsStored(c, b);
    EqualEndsEqualLogs(c, Text(c, x), Text(c, y));
  }

  lemma WrittenLog(c: Codec, events: seq<Dict>)
    requires Faithful(c)
    ensures var log := Chained(c, events); var lines := SplitLines(Text(c, log));
      && |lines| == |log| && (forall i | 0 <= i < |lines| :: LineOk(c, lines, i))
      && forall i | 0 <= i < |lines| :: EventAt(c, lines, i) == log[i]
  {
    hide Faithful, SplitLines, Text, Chained, LineOk, EventAt;
    WrittenLogVerifies(c, events);
    TextSplitsIntoEvents(c, Chained(c, events));
    forall i | 0 <= i < |events| ensures EventAt(c, Dumped(c, Chained(c, events)), i) == Chained(c, events)[i] {
      DumpedEvent(c, Chained(c, events), i);
    }
  }

  lemma LastHashIsStored(c: Codec, events: seq<Dict>)
    requires events != []
    ensures var log := Chained(c, events);
      LastHash(c, log).Some? && Member(log[|log| - 1], HASH) == Str(LastHash(c, log).value)
  {
    ChainedStoresHash(c, events, |events| - 1);
  }

  lemma SameHashSameBody(c: Codec, x: seq<string>, i: nat, y: seq<string>, j: nat)
    requires H.Injective(c.digest) && i < |x| && j < |y| && LineOk(c, x, i) && LineOk(c, y, j)
    requires Member(EventAt(c, x, i), HASH) == Member(EventAt(c, y, j), HASH)
    ensures Body(c, x, i) == Body(c, y, j)
  {
    hide EventAt, Numbered;
  }

  lemma SameBodySameEvent(c: Codec, x: seq<string>, y: seq<string>, i: nat)
    requires i < |x| && i < |y| && LineOk(c, x, i) && LineOk(c, y, i) && Body(c, x, i) == Body(c, y, i)
    ensures EventAt(c, x, i) == EventAt(c, y, i)
  {
    hide EventAt, Numbered;
    BodyAndHash(EventAt(c, x, i), EventAt(c, y, i));
  }

  lemma BodyAndHash(d: Dict, e: Dict)
    requires d - {HASH} == e - {HASH} && HASH in d && HASH in e && d[HASH] == e[HASH]
    ensures d == e
  {
    forall k | k in d ensures k in e && e[k] == d[k] { if k != HASH { assert k in d - {HASH}; } }
    forall k | k in e ensures k in d { if k != HASH { assert k in e - {HASH}; } }
  }
}
