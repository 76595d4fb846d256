/**
 The incremental event-stream parser of the job page and its reading loop
 (frontend/hooks/useJobEventSource.ts). The format is the one of section 9.2.6 of the WHATWG HTML
 Standard, of which the client reads blocks separated by LF LF. Text arrives in chunks cut anywhere;
 JSON is a predicate telling which texts parse.
 */
module SseParser {
  datatype Frame = Frame(event: string, data: string)

  // ---------------------------------------------------------------- strings

  /** String.split on a blank line: leftmost, non-overlapping; always at least one part. */
  function Split(s: string): (parts: seq<string>)
    ensures parts != []
  {
    if |s| < 2 then [s]
    else if s[0] == '\n' && s[1] == '\n' then [""] + Split(s[2..])
    else Prepend(s[0], Split(s[1..]))
  }

  function Prepend(c: char, parts: seq<string>): (r: seq<string>)
    requires parts != []
    ensures |r| == |parts|
  {
    [[c] + parts[0]] + parts[1..]
  }

  function Lines(s: string): (lines: seq<string>)
    ensures lines != []
  {
    if s == "" then [""]
    else if s[0] == '\n' then [""] + Lines(s[1..])
    else Prepend(s[0], Lines(s[1..]))
  }

  function Init<T>(s: seq<T>): seq<T>
    requires s != []
  {
    s[..|s| - 1]
  }

  function Last<T>(s: seq<T>): T
    requires s != []
  {
    s[|s| - 1]
  }

  /** White space and line terminators, which trim removes. */
  predicate IsSpace(c: char) {
    var n := c as int;
    || 0x09 <= n <= 0x0D || n == 0x20 || n == 0xA0 || n == 0x1680 || 0x2000 <= n <= 0x200A
    || n == 0x2028 || n == 0x2029 || n == 0x202F || n == 0x205F || n == 0x3000 || n == 0xFEFF
  }

  function TrimStart(s: string): string {
    if s != "" && IsSpace(s[0]) then TrimStart(s[1..]) else s
  }

  function TrimEnd(s: string): string {
    if s != "" && IsSpace(Last(s)) then TrimEnd(Init(s)) else s
  }

  function Trim(s: string): string { TrimEnd(TrimStart(s)) }

  function Join(lines: seq<string>): string {
    if lines == [] then ""
    else if |lines| == 1 then lines[0]
    else Join(Init(lines)) + "\n" + Last(lines)
  }

  // ---------------------------------------------------------------- one block

  /** The last event line and all data lines. */
  function Scan(lines: seq<string>): (string, seq<string>) {
    if lines == [] then ("message", [])
    else
      var (event, data) := Scan(Init(lines));
      var line := Last(lines);
      if "event:" <= line then (Trim(line[6..]), data)
      else if "data:" <= line then (event, data + [Trim(line[5..])])
      else (event, data)
  }

  /** The frame of a block, if it is one: comments, blank blocks and blocks without data are not. */
  function FrameOf(block: string): seq<Frame> {
    if Trim(block) == "" || ":" <= block then []
    else
      var (event, data) := Scan(Lines(block));
      if data == [] then [] else [Frame(event, Join(data))]
  }

  function FlatMap<A, B>(f: A -> seq<B>, xs: seq<A>): seq<B> {
    if xs == [] then [] else FlatMap(f, Init(xs)) + f(Last(xs))
  }

  function Frames(blocks: seq<string>): seq<Frame> { FlatMap(FrameOf, blocks) }

  // ---------------------------------------------------------------- what the pieces mean

  predicate AllSpace(s: string) { forall i | 0 <= i < |s| :: IsSpace(s[i]) }

  lemma {:induction false} TrimStartIs(s: string) returns (before: string)
    ensures s == before + TrimStart(s) && AllSpace(before)
    ensures TrimStart(s) != "" ==> !IsSpace(TrimStart(s)[0])
  {
    before := "";
    if s != "" && IsSpace(s[0]) {
      before := TrimStartIs(s[1..]);
      before := [s[0]] + before;
      assert s == [s[0]] + s[1..];
    }
  }

  lemma {:induction false} TrimEndIs(s: string) returns (after: string)
    ensures s == TrimEnd(s) + after && AllSpace(after) && TrimEnd(s) <= s
    ensures TrimEnd(s) != "" ==> !IsSpace(Last(TrimEnd(s)))
  {
    after := "";
    if s != "" && IsSpace(Last(s)) {
      after := TrimEndIs(Init(s));
      after := after + [Last(s)];
      assert s == Init(s) + [Last(s)];
    }
  }

  /** Trimming takes white space off both ends and nothing else, and leaves none there. */
  lemma TrimIs(s: string) returns (before: string, after: string)
    ensures s == before + Trim(s) + after && AllSpace(before) && AllSpace(after)
    ensures Trim(s) != "" ==> !IsSpace(Trim(s)[0]) && !IsSpace(Last(Trim(s)))
  {
    before := TrimStartIs(s);
    after := TrimEndIs(TrimStart(s));
    assert Trim(s) != "" ==> Trim(s)[0] == TrimStart(s)[0];
  }

  function JoinBlocks(parts: seq<string>): string
    requires parts != []
  {
    if |parts| == 1 then parts[0] else parts[0] + "\n\n" + JoinBlocks(parts[1..])
  }

  predicate HasBlank(s: string) { exists i :: 0 <= i < |s| - 1 && s[i] == '\n' && s[i + 1] == '\n' }

  /** A finished block: the blank line that ends it is the first in the text. */
  predicate Finished(s: string) { !HasBlank(s) && (s != "" ==> Last(s) != '\n') }

  /** Every part but the last is finished, and the last has no blank line. */
  ghost predicate Parted(parts: seq<string>) {
    parts != [] && !HasBlank(Last(parts)) && forall i | 0 <= i < |parts| - 1 :: Finished(parts[i])
  }

  /** The parts put back together with blank lines are the text, and each ends at the first blank line there is. */
  lemma {:induction false} SplitIs(s: string)
    ensures JoinBlocks(Split(s)) == s && Parted(Split(s))
  {
    if |s| < 2 {
      assert Split(s) == [s];
    } else if s[0] == '\n' && s[1] == '\n' {
      SplitIs(s[2..]);
      SplitBlank(s);
      BlankFirst(Split(s[2..]));
      assert s == "\n\n" + s[2..];
    } else {
      SplitIs(s[1..]);
      SplitChar(s);
      PrependJoins(s[0], Split(s[1..]));
      PrependParts(s[0], Split(s[1..]), s[1..]);
      assert s == [s[0]] + s[1..];
    }
  }

  lemma BlankFirst(parts: seq<string>)
    requires Parted(parts)
    ensures Parted([""] + parts) && JoinBlocks([""] + parts) == "\n\n" + JoinBlocks(parts)
  {
    var all := [""] + parts;
    assert all[1..] == parts && Last(all) == Last(parts);
    forall i | 0 <= i < |all| - 1 ensures Finished(all[i]) {
      assert i > 0 ==> all[i] == parts[i - 1];
    }
  }

  lemma PrependJoins(c: char, parts: seq<string>)
    requires parts != []
    ensures JoinBlocks(Prepend(c, parts)) == [c] + JoinBlocks(parts)
  {
    assert Prepend(c, parts)[1..] == parts[1..];
  }

  lemma FirstChar(parts: seq<string>)
    requires parts != [] && JoinBlocks(parts) != ""
    ensures parts[0] != "" ==> JoinBlocks(parts)[0] == parts[0][0]
    ensures parts[0] == "" ==> |parts| > 1 && JoinBlocks(parts)[0] == '\n'
  {
  }

  lemma PrependParts(c: char, parts: seq<string>, s: string)
    requires Parted(parts) && JoinBlocks(parts) == s && s != "" && !(c == '\n' && s[0] == '\n')
    ensures Parted(Prepend(c, parts))
  {
    var all := Prepend(c, parts);
    FirstChar(parts);
    ConsHasBlank(c, parts[0]);
    forall i | 0 <= i < |all| - 1 ensures Finished(all[i]) {
      assert i > 0 ==> all[i] == parts[i];
    }
  }

  lemma ConsHasBlank(c: char, s: string)
    ensures HasBlank([c] + s) <==> HasBlank(s) || (s != "" && c == '\n' && s[0] == '\n')
  {
    var t := [c] + s;
    if HasBlank(s) {
      var i :| 0 <= i < |s| - 1 && s[i] == '\n' && s[i + 1] == '\n';
      assert t[i + 1] == '\n' && t[i + 2] == '\n';
    }
    if HasBlank(t) {
      var i :| 0 <= i < |t| - 1 && t[i] == '\n' && t[i + 1] == '\n';
      assert i > 0 ==> s[i - 1] == '\n' && s[i] == '\n';
    }
    if s != "" && c == '\n' && s[0] == '\n' {
      assert t[0] == '\n' && t[1] == '\n';
    }
  }

  lemma {:induction false} JoinCons(first: string, rest: seq<string>)
    requires rest != []
    ensures Join([first] + rest) == first + "\n" + Join(rest)
  {
    var all := [first] + rest;
    assert Last(all) == Last(rest);
    if |rest| == 1 {
      assert Init(all) == [first];
    } else {
      assert Init(all) == [first] + Init(rest);
      JoinCons(first, Init(rest));
    }
  }

  lemma JoinPrepend(c: char, lines: seq<string>)
    requires lines != []
    ensures Join(Prepend(c, lines)) == [c] + Join(lines)
  {
    if |lines| > 1 {
      assert lines == [lines[0]] + lines[1..];
      JoinCons(lines[0], lines[1..]);
      JoinCons([c] + lines[0], lines[1..]);
    }
  }

  /** The lines joined again are the text, and no line has a line break in it. */
  lemma {:induction false} LinesAre(s: string)
    ensures Join(Lines(s)) == s && forall i | 0 <= i < |Lines(s)| :: '\n' !in Lines(s)[i]
  {
    if s != "" {
      LinesAre(s[1..]);
      assert s == [s[0]] + s[1..];
      if s[0] == '\n' {
        JoinCons("", Lines(s[1..]));
        assert Lines(s)[1..] == Lines(s[1..]);
      } else {
        JoinPrepend(s[0], Lines(s[1..]));
      }
    }
  }

  predicate NamesEvent(line: string) { "event:" <= line }

  predicate HasData(line: string) { "data:" <= line }

  /** The event is named by the last line that names one. */
  lemma {:induction false} EventIsLast(lines: seq<string>, i: nat)
    requires i < |lines| && NamesEvent(lines[i]) && forall j | i < j < |lines| :: !NamesEvent(lines[j])
    ensures Scan(lines).0 == Trim(lines[i][6..])
  {
    if i < |lines| - 1 {
      EventIsLast(Init(lines), i);
      assert !NamesEvent(Last(lines));
    }
  }

  /** And is a message if none does. */
  lemma {:induction false} EventByDefault(lines: seq<string>)
    requires forall i | 0 <= i < |lines| :: !NamesEvent(lines[i])
    ensures Scan(lines).0 == "message"
  {
    if lines != [] {
      EventByDefault(Init(lines));
      assert !NamesEvent(Last(lines));
    }
  }

  lemma NotBoth(line: string)
    ensures !(NamesEvent(line) && HasData(line))
  {
    if NamesEvent(line) {
      assert line[0] == "event:"[0];
    }
  }

  /** The data are the texts of the data lines, all of them and in order. */
  lemma {:induction false} DataAreAll(lines: seq<string>) returns (at: seq<nat>)
    ensures |at| == |Scan(lines).1|
    ensures forall k | 0 <= k < |at| ::
              at[k] < |lines| && HasData(lines[at[k]]) && Scan(lines).1[k] == Trim(lines[at[k]][5..])
    ensures forall i, k | 0 <= i < k < |at| :: at[i] < at[k]
    ensures forall i | 0 <= i < |lines| && HasData(lines[i]) :: i in at
  {
    at := [];
    if lines != [] {
      var n := |lines| - 1;
      at := DataAreAll(Init(lines));
      NotBoth(lines[n]);
      if HasData(lines[n]) {
        at := at + [n];
      }
    }
  }

  // ---------------------------------------------------------------- parsing

  method ParseSseChunks(buffer: string) returns (events: seq<Frame>, rest: string)
    ensures events == Frames(Init(Split(buffer))) && rest == Last(Split(buffer))
  {
    var split := Split(buffer);
    var parts := Init(split);
    rest := Last(split);
    events := [];
    for i := 0 to |parts|
      invariant events == Frames(parts[..i])
    {
      var block := parts[i];
      assert Init(parts[..i + 1]) == parts[..i];
      if Trim(block) == "" || ":" <= block {
        continue;
      }
      var event, dataLines := "message", [];
      var lines := Lines(block);
      for j := 0 to |lines|
        invariant (event, dataLines) == Scan(lines[..j])
      {
        assert Init(lines[..j + 1]) == lines[..j];
        var line := lines[j];
        if "event:" <= line {
          event := Trim(line[6..]);
        } else if "data:" <= line {
          dataLines := dataLines + [Trim(line[5..])];
        }
      }
      assert lines[..|lines|] == lines;
      if dataLines != [] {
        events := events + [Frame(event, Join(dataLines))];
      }
    }
    assert parts[..|parts|] == parts;
  }

  // ---------------------------------------------------------------- cutting a stream

  lemma {:induction false} OnePart(s: string)
    requires |Split(s)| == 1
    ensures Split(s) == [s]
  {
    if |s| >= 2 {
      OnePart(s[1..]);
      assert s == [s[0]] + s[1..];
    }
  }

  lemma PrependInit(c: char, parts: seq<string>, more: seq<string>)
    requires |parts| > 1
    ensures Prepend(c, Init(parts) + more) == Init(Prepend(c, parts)) + more
    ensures Last(Prepend(c, parts)) == Last(parts)
  {
  }

  lemma ConsInit<T>(x: T, parts: seq<T>, more: seq<T>)
    requires parts != []
    ensures [x] + (Init(parts) + more) == Init([x] + parts) + more
    ensures Last([x] + parts) == Last(parts)
  {
  }

  lemma SnocInit<T>(a: seq<T>, b: seq<T>)
    requires b != []
    ensures Init(a + b) == a + Init(b) && Last(a + b) == Last(b)
  {
  }

  lemma SplitBlank(s: string)
    requires |s| >= 2 && s[0] == '\n' && s[1] == '\n'
    ensures Split(s) == [""] + Split(s[2..])
  {
  }

  lemma SplitChar(s: string)
    requires |s| >= 2 && !(s[0] == '\n' && s[1] == '\n')
    ensures Split(s) == Prepend(s[0], Split(s[1..]))
  {
  }

  /** Splitting can be resumed from the last part, wherever the text was cut, even inside a delimiter. */
  lemma {:induction false} SplitResumes(x: string, y: string)
    ensures Split(x + y) == Init(Split(x)) + Split(Last(Split(x)) + y)
  {
    if |Split(x)| == 1 {
      OnePart(x);
      assert Init([x]) == [] && [] + Split(x + y) == Split(x + y);
    } else if x[0] == '\n' && x[1] == '\n' {
      assert (x + y)[2..] == x[2..] + y;
      SplitBlank(x);
      SplitBlank(x + y);
      SplitResumes(x[2..], y);
      ConsInit("", Split(x[2..]), Split(Last(Split(x[2..])) + y));
    } else {
      assert (x + y)[1..] == x[1..] + y;
      SplitChar(x);
      SplitChar(x + y);
      SplitResumes(x[1..], y);
      PrependInit(x[0], Split(x[1..]), Split(Last(Split(x[1..])) + y));
    }
  }

  lemma Assoc<T>(a: seq<T>, b: seq<T>, c: seq<T>)
    ensures a + (b + c) == (a + b) + c
  {
  }

  lemma {:induction false} FlatMapConcat<A, B>(f: A -> seq<B>, a: seq<A>, b: seq<A>)
    ensures FlatMap(f, a + b) == FlatMap(f, a) + FlatMap(f, b)
  {
    if b == [] {
      assert a + b == a;
    } else {
      SnocInit(a, b);
      FlatMapConcat(f, a, Init(b));
      Assoc(FlatMap(f, a), FlatMap(f, Init(b)), f(Last(b)));
    }
  }

  // ---------------------------------------------------------------- the reader

  predicate Known(event: string) { event == "snapshot" || event == "progress" || event == "terminal" }

  /** A frame the page acts on: of a known kind and with data that parses. */
  predicate Effective(f: Frame, json: string -> bool) { Known(f.event) && json(f.data) }

  function EffectiveOf(frames: seq<Frame>, json: string -> bool): seq<Frame> {
    if frames == [] then []
    else EffectiveOf(Init(frames), json) + if Effective(Last(frames), json) then [Last(frames)] else []
  }

  /** A single frame is acted on when it is one of the three kinds and its data parse. */
  lemma ActedOnIff(f: Frame, json: string -> bool)
    ensures EffectiveOf([f], json)
            == if f.event in {"snapshot", "progress", "terminal"} && json(f.data) then [f] else []
  {
    assert Init([f]) == [];
  }

  predicate HasTerminal(frames: seq<Frame>) { exists i :: 0 <= i < |frames| && frames[i].event == "terminal" }

  datatype Reader = Reader(buffer: string, delivered: seq<Frame>, sawTerminal: bool)

  const FRESH: Reader := Reader("", [], false)

  /** One chunk: every frame it completes is acted on, those after a terminal one too. */
  function Received(r: Reader, chunk: string, json: string -> bool): Reader {
    var parts := Split(r.buffer + chunk);
    var batch := EffectiveOf(Frames(Init(parts)), json);
    Reader(Last(parts), r.delivered + batch, r.sawTerminal || HasTerminal(batch))
  }

  /** The reader after some chunks: it stops reading once it has seen a terminal frame. */
  function Reading(chunks: seq<string>, json: string -> bool): Reader {
    if chunks == [] then FRESH
    else
      var r := Reading(Init(chunks), json);
      if r.sawTerminal then r else Received(r, Last(chunks), json)
  }

  function Concat(chunks: seq<string>): string {
    if chunks == [] then "" else Concat(Init(chunks)) + Last(chunks)
  }

  /** What one parse of the whole text would deliver. */
  function Whole(text: string, json: string -> bool): seq<Frame> {
    EffectiveOf(Frames(Init(Split(text))), json)
  }

  class JobEventReader {
    var buffer: string
    var delivered: seq<Frame>
    var sawTerminal: bool

    function State(): Reader
      reads this
    {
      Reader(buffer, delivered, sawTerminal)
    }

    constructor ()
      ensures State() == FRESH
    {
      buffer, delivered, sawTerminal := "", [], false;
    }

    method Receive(chunk: string, json: string -> bool)
      modifies this
      ensures State() == Received(old(State()), chunk, json)
    {
      var frames, rest := ParseSseChunks(buffer + chunk);
      buffer := rest;
      for i := 0 to |frames|
        invariant buffer == rest
        invariant delivered == old(delivered) + EffectiveOf(frames[..i], json)
        invariant sawTerminal == (old(sawTerminal) || HasTerminal(EffectiveOf(frames[..i], json)))
      {
        var frame := frames[i];
        EffectiveSnoc(frames, i, json);
        if !Known(frame.event) {
          continue;
        }
        if json(frame.data) {
          delivered := delivered + [frame];
          if frame.event == "terminal" {
            sawTerminal := true;
          }
        }
      }
      assert frames[..|frames|] == frames;
    }

    method ReadAll(chunks: seq<string>, json: string -> bool)
      requires State() == FRESH
      modifies this
      ensures State() == Reading(chunks, json)
    {
      var i := 0;
      while i < |chunks|
        invariant 0 <= i <= |chunks|
        invariant State() == Reading(chunks[..i], json) && !sawTerminal
      {
        assert Init(chunks[..i + 1]) == chunks[..i];
        Receive(chunks[i], json);
        i := i + 1;
        if sawTerminal {
          StaysStopped(chunks, i, json);
          return;
        }
      }
      assert chunks[..|chunks|] == chunks;
    }
  }

  lemma EffectiveSnoc(frames: seq<Frame>, i: nat, json: string -> bool)
    requires i < |frames|
    ensures var before, after := EffectiveOf(frames[..i], json), EffectiveOf(frames[..i + 1], json);
            && after == before + (if Effective(frames[i], json) then [frames[i]] else [])
            && (HasTerminal(after)
                <==> HasTerminal(before) || (Effective(frames[i], json) && frames[i].event == "terminal"))
  {
    var before := EffectiveOf(frames[..i], json);
    assert Init(frames[..i + 1]) == frames[..i];
    assert before + [] == before;
    HasTerminalSnoc(before, frames[i]);
  }

  lemma HasTerminalSnoc(frames: seq<Frame>, f: Frame)
    ensures HasTerminal(frames + [f]) <==> HasTerminal(frames) || f.event == "terminal"
  {
    assert (frames + [f])[|frames|] == f;
    forall i | 0 <= i < |frames| ensures (frames + [f])[i] == frames[i] {
    }
  }

  lemma {:induction false} StaysStopped(chunks: seq<string>, n: nat, json: string -> bool)
    requires n <= |chunks| && Reading(chunks[..n], json).sawTerminal
    ensures Reading(chunks, json) == Reading(chunks[..n], json)
    decreases |chunks|
  {
    if n == |chunks| {
      assert chunks[..n] == chunks;
    } else {
      assert Init(chunks)[..n] == chunks[..n];
      StaysStopped(Init(chunks), n, json);
    }
  }

  // ---------------------------------------------------------------- chunk invariance

  lemma {:induction false} EffectiveConcat(a: seq<Frame>, b: seq<Frame>, json: string -> bool)
    ensures EffectiveOf(a + b, json) == EffectiveOf(a, json) + EffectiveOf(b, json)
  {
    if b == [] {
      assert a + b == a;
    } else {
      SnocInit(a, b);
      EffectiveConcat(a, Init(b), json);
      Assoc(EffectiveOf(a, json), EffectiveOf(Init(b), json), if Effective(Last(b), json) then [Last(b)] else []);
    }
  }

  lemma HasTerminalConcat(a: seq<Frame>, b: seq<Frame>)
    ensures HasTerminal(a + b) <==> HasTerminal(a) || HasTerminal(b)
  {
    if i :| 0 <= i < |b| && b[i].event == "terminal" {
      assert (a + b)[|a| + i] == b[i];
    }
    if i :| 0 <= i < |a| && a[i].event == "terminal" {
      assert (a + b)[i] == a[i];
    }
  }

  /** More text only adds frames after the ones already there, and parsing can go on from the rest. */
  lemma WholeGrows(x: string, y: string, json: string -> bool)
    ensures var parts := Split(Last(Split(x)) + y);
            && Whole(x + y, json) == Whole(x, json) + EffectiveOf(Frames(Init(parts)), json)
            && Last(Split(x + y)) == Last(parts)
  {
    SplitResumes(x, y);
    var before, parts := Init(Split(x)), Split(Last(Split(x)) + y);
    SnocInit(before, parts);
    FlatMapConcat(FrameOf, before, Init(parts));
    EffectiveConcat(Frames(before), Frames(Init(parts)), json);
  }

  /** The reader against one parse of all the text so far. */
  lemma {:induction false} ReaderFollows(chunks: seq<string>, json: string -> bool)
    ensures var r, text := Reading(chunks, json), Concat(chunks);
            && r.delivered <= Whole(text, json)
            && (r.sawTerminal <==> HasTerminal(r.delivered))
            && (!r.sawTerminal ==> r.delivered == Whole(text, json) && r.buffer == Last(Split(text)))
  {
    if chunks != [] {
      ReaderFollows(Init(chunks), json);
      var r, text, chunk := Reading(Init(chunks), json), Concat(Init(chunks)), Last(chunks);
      WholeGrows(text, chunk, json);
      if !r.sawTerminal {
        HasTerminalConcat(r.delivered, EffectiveOf(Frames(Init(Split(r.buffer + chunk))), json));
      }
    }
  }

  /** The frames up to and including the first terminal one. */
  function UpToTerminal(frames: seq<Frame>): seq<Frame> {
    if frames == [] then []
    else if frames[0].event == "terminal" then [frames[0]]
    else [frames[0]] + UpToTerminal(frames[1..])
  }

  lemma {:induction false} PrefixDecides(a: seq<Frame>, b: seq<Frame>)
    requires a <= b && HasTerminal(a)
    ensures UpToTerminal(a) == UpToTerminal(b)
  {
    assert a[0] == b[0];
    if a[0].event != "terminal" {
      var i :| 0 <= i < |a| && a[i].event == "terminal";
      assert a[1..][i - 1] == a[i];
      PrefixDecides(a[1..], b[1..]);
    }
  }

  /**
   Chunk invariance: however the stream is cut, up to the first terminal frame the page acts on the
   same frames as one parse of the whole text, and it sees a terminal frame exactly when the text has one.
   */
  lemma ChunkInvariance(chunks: seq<string>, json: string -> bool)
    ensures var r, all := Reading(chunks, json), Whole(Concat(chunks), json);
            && UpToTerminal(r.delivered) == UpToTerminal(all)
            && (r.sawTerminal <==> HasTerminal(all))
            && r.delivered <= all
            && (!HasTerminal(all) ==> r.delivered == all)
  {
    ReaderFollows(chunks, json);
    var r, all := Reading(chunks, json), Whole(Concat(chunks), json);
    if r.sawTerminal {
      PrefixDecides(r.delivered, all);
      HasTerminalConcat(r.delivered, all[|r.delivered|..]);
      assert all == r.delivered + all[|r.delivered|..];
    }
  }

  /** Two ways of cutting the same text. */
  lemma CutsAgree(a: seq<string>, b: seq<string>, json: string -> bool)
    requires Concat(a) == Concat(b)
    ensures UpToTerminal(Reading(a, json).delivered) == UpToTerminal(Reading(b, json).delivered)
    ensures Reading(a, json).sawTerminal == Reading(b, json).sawTerminal
  {
    ChunkInvariance(a, json);
    ChunkInvariance(b, json);
  }
}
