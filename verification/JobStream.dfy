/**
 From the server's job stream (backend/src/api/services/job_progress.py) to the page that reads it:
 what is written, cut anywhere on the way, is what the page acts on.
 */
module JobStream {
  import opened SseParser

  // ---------------------------------------------------------------- the server

  datatype Message = Event(name: string, data: string) | Ping

  /** The data is JSON text of an object: no line break in it and no white space around it. */
  datatype Payload = Payload(data: string, terminal: bool)

  datatype Update = Silence | Update(payload: Payload)

  /** format_sse and the heartbeat comment, without the blank line that ends them. */
  function Block(m: Message): string {
    match m
    case Event(name, data) => "event: " + name + "\n" + "data: " + data
    case Ping => ": ping"
  }

  function Wire(ms: seq<Message>): string {
    if ms == [] then "" else Block(ms[0]) + "\n\n" + Wire(ms[1..])
  }

  /** Progress until the first terminal payload, heartbeats in between; nothing after it. */
  function Following(updates: seq<Update>): seq<Message> {
    if updates == [] then []
    else if updates[0].Silence? then [Ping] + Following(updates[1..])
    else if updates[0].payload.terminal then [Event("terminal", updates[0].payload.data)]
    else [Event("progress", updates[0].payload.data)] + Following(updates[1..])
  }

  function Stream(initial: Payload, updates: seq<Update>): seq<Message> {
    [Event("snapshot", initial.data)]
    + if initial.terminal then [Event("terminal", initial.data)] else Following(updates)
  }

  method SseJobEventStream(initial: Payload, updates: seq<Update>) returns (sent: seq<Message>)
    ensures sent == Stream(initial, updates)
  {
    sent := [Event("snapshot", initial.data)];
    if initial.terminal {
      sent := sent + [Event("terminal", initial.data)];
      return;
    }
    var i := 0;
    while i < |updates|
      invariant 0 <= i <= |updates|
      invariant sent + Following(updates[i..]) == Stream(initial, updates)
    {
      assert updates[i..][1..] == updates[i + 1..];
      if updates[i].Silence? {
        sent := sent + [Ping];
      } else if updates[i].payload.terminal {
        sent := sent + [Event("terminal", updates[i].payload.data)];
        return;
      } else {
        sent := sent + [Event("progress", updates[i].payload.data)];
      }
      i := i + 1;
    }
    assert sent + [] == sent;
  }

  predicate Finishes(u: Update) { u.Update? && u.payload.terminal }

  /** The message an update becomes. */
  predicate Tells(m: Message, u: Update) {
    match u
    case Silence => m == Ping
    case Update(payload) => m == Event(if payload.terminal then "terminal" else "progress", payload.data)
  }

  /** One message for each update, in order, up to the first terminal one and including it, and none after. */
  lemma {:induction false} FollowingTellsEach(updates: seq<Update>)
    ensures
      var ms := Following(updates);
      && |ms| <= |updates| && (forall i | 0 <= i < |ms| :: Tells(ms[i], updates[i]))
      && (forall i | 0 <= i < |ms| - 1 :: !Finishes(updates[i]))
      && (|ms| < |updates| ==> ms != [] && Finishes(updates[|ms| - 1]))
  {
    if updates != [] {
      FollowingTellsEach(updates[1..]);
      var rest := Following(updates[1..]);
      if !Finishes(updates[0]) {
        assert Following(updates)[1..] == rest;
      }
    }
  }

  /** So the server says everything: the snapshot first, and a job already over gets its terminal event at once. */
  lemma ServerTellsAll(initial: Payload, updates: seq<Update>)
    ensures
      var ms := Stream(initial, updates);
      && ms != [] && ms[0] == Event("snapshot", initial.data)
      && (initial.terminal ==> ms[1..] == [Event("terminal", initial.data)])
      && (!initial.terminal ==>
            && |ms| - 1 <= |updates| && (forall i | 0 <= i < |ms| - 1 :: Tells(ms[i + 1], updates[i]))
            && (forall i | 0 <= i < |ms| - 2 :: !Finishes(updates[i]))
            && (|ms| - 1 < |updates| ==> |ms| > 1 && Finishes(updates[|ms| - 2])))
  {
    FollowingTellsEach(updates);
    assert Stream(initial, updates)[1..]
           == if initial.terminal then [Event("terminal", initial.data)] else Following(updates);
  }

  // ---------------------------------------------------------------- one message

  ghost predicate Clean(s: string) {
    '\n' !in s && s != "" && !IsSpace(s[0]) && !IsSpace(Last(s))
  }

  ghost predicate CleanMessage(m: Message) { m.Event? ==> Clean(m.name) && Clean(m.data) }

  lemma TrimOfClean(s: string)
    requires s != "" && !IsSpace(s[0]) && !IsSpace(Last(s))
    ensures Trim(s) == s && Trim(" " + s) == s
  {
    assert (" " + s)[1..] == s;
  }

  lemma {:induction false} LinesOf(a: string, b: string)
    requires '\n' !in a
    ensures Lines(a) == [a]
    ensures Lines(a + "\n" + b) == [a] + Lines(b)
  {
    var s := a + "\n" + b;
    if a == "" {
      assert s[1..] == b;
    } else {
      assert s[1..] == a[1..] + "\n" + b;
      LinesOf(a[1..], b);
      assert a == [a[0]] + a[1..];
    }
  }

  lemma DifferentStart(p: string, s: string)
    requires p != "" && s != "" && p[0] != s[0]
    ensures !(p <= s)
  {
  }

  lemma ScanOfName(name: string)
    requires Clean(name)
    ensures Scan(["event: " + name]) == (name, [])
  {
    var a := "event: " + name;
    TrimOfClean(name);
    assert a[..6] == "event:" && a[6..] == " " + name;
    assert Init([a]) == [];
  }

  /** The two lines of an event, read back. */
  lemma ScanOfEvent(name: string, data: string)
    requires Clean(name) && Clean(data)
    ensures Scan(["event: " + name, "data: " + data]) == (name, [data])
  {
    var a, b := "event: " + name, "data: " + data;
    ScanOfName(name);
    TrimOfClean(data);
    assert b[..5] == "data:" && b[5..] == " " + data;
    DifferentStart("event:", b);
    assert Init([a, b]) == [a] && [] + [data] == [data];
  }

  /** An event comes back from its own block; a heartbeat makes none. */
  lemma FrameOfBlock(m: Message)
    requires CleanMessage(m)
    ensures FrameOf(Block(m)) == if m.Event? then [Frame(m.name, m.data)] else []
  {
    if m.Event? {
      var name, data := "event: " + m.name, "data: " + m.data;
      var block := Block(m);
      assert block == name + "\n" + data && Last(block) == Last(m.data);
      TrimOfClean(block);
      DifferentStart(":", block);
      LinesOf(name, data);
      LinesOf(data, "");
      ScanOfEvent(m.name, m.data);
      assert Lines(block) == [name, data];
    }
  }

  // ---------------------------------------------------------------- the whole text

  ghost predicate Unbroken(block: string) {
    (block != "" ==> Last(block) != '\n')
    && forall i :: 0 <= i < |block| - 1 ==> !(block[i] == '\n' && block[i + 1] == '\n')
  }

  lemma {:induction false} SplitOfBlock(block: string)
    requires Unbroken(block)
    ensures Split(block + "\n\n") == [block, ""]
  {
    var s := block + "\n\n";
    if block == "" {
      assert s[2..] == "";
    } else {
      assert s[1..] == block[1..] + "\n\n";
      assert Last(block) == block[|block| - 1];
      if |block| > 1 {
        assert Last(block[1..]) == Last(block);
        assert block[0] == '\n' ==> block[0 + 1] != '\n';
      }
      forall i | 0 <= i < |block[1..]| - 1 ensures !(block[1..][i] == '\n' && block[1..][i + 1] == '\n') {
        assert !(block[i + 1] == '\n' && block[i + 1 + 1] == '\n');
      }
      SplitOfBlock(block[1..]);
      assert block == [block[0]] + block[1..];
    }
  }

  lemma LineIsUnbroken(a: string, b: string)
    requires '\n' !in a && '\n' !in b && a != "" && b != ""
    ensures Unbroken(a + "\n" + b)
  {
    var s := a + "\n" + b;
    assert forall i | 0 <= i < |s| :: s[i] == '\n' ==> i == |a|;
  }

  lemma BlockIsUnbroken(m: Message)
    requires CleanMessage(m)
    ensures Unbroken(Block(m))
  {
    if m.Event? {
      LineIsUnbroken("event: " + m.name, "data: " + m.data);
    }
  }

  function Events(ms: seq<Message>): seq<Frame> {
    if ms == [] then []
    else (if ms[0].Event? then [Frame(ms[0].name, ms[0].data)] else []) + Events(ms[1..])
  }

  /** Round trip: parsing what was written gives back the events, in order, and leaves nothing over. */
  lemma {:induction false} ParseOfWire(ms: seq<Message>)
    requires forall m | m in ms :: CleanMessage(m)
    ensures Frames(Init(Split(Wire(ms)))) == Events(ms) && Last(Split(Wire(ms))) == ""
  {
    if ms != [] {
      ParseOfWire(ms[1..]);
      BlockIsUnbroken(ms[0]);
      ParseOfBlock(ms[0], Wire(ms[1..]));
    }
  }

  /** A block and its blank line in front of any text: its own frame first, then the text's. */
  lemma ParseOfBlock(m: Message, rest: string)
    requires CleanMessage(m) && Unbroken(Block(m))
    ensures var parts := Split(Block(m) + "\n\n" + rest);
            && Frames(Init(parts)) == (if m.Event? then [Frame(m.name, m.data)] else []) + Frames(Init(Split(rest)))
            && Last(parts) == Last(Split(rest))
  {
    var block := Block(m);
    SplitOfBlock(block);
    SplitResumes(block + "\n\n", rest);
    assert Init([block, ""]) == [block] && "" + rest == rest;
    SnocInit([block], Split(rest));
    FlatMapConcat(FrameOf, [block], Init(Split(rest)));
    assert Init([block]) == [] && [] + FrameOf(block) == FrameOf(block);
    FrameOfBlock(m);
  }

  // ---------------------------------------------------------------- server to page

  /** Every payload is clean text that parses as JSON. */
  ghost predicate Sound(initial: Payload, updates: seq<Update>, json: string -> bool) {
    && Clean(initial.data) && json(initial.data)
    && forall u | u in updates && u.Update? :: Clean(u.payload.data) && json(u.payload.data)
  }

  ghost predicate SoundMessages(ms: seq<Message>, json: string -> bool) {
    forall m | m in ms :: m.Event? ==> Known(m.name) && Clean(m.data) && json(m.data)
  }

  lemma {:induction false} FollowingIsSound(updates: seq<Update>, json: string -> bool)
    requires forall u | u in updates && u.Update? :: Clean(u.payload.data) && json(u.payload.data)
    ensures SoundMessages(Following(updates), json)
  {
    if updates != [] {
      FollowingIsSound(updates[1..], json);
      assert updates[0] in updates;
    }
  }

  lemma {:induction false} AllEffective(ms: seq<Message>, json: string -> bool)
    requires SoundMessages(ms, json)
    ensures EffectiveOf(Events(ms), json) == Events(ms)
  {
    if ms != [] {
      AllEffective(ms[1..], json);
      assert ms[0] in ms;
      var first: seq<Frame> := if ms[0].Event? then [Frame(ms[0].name, ms[0].data)] else [];
      EffectiveConcat(first, Events(ms[1..]), json);
      if first != [] {
        assert Init(first) == [];
      }
    }
  }

  /** One parse of all the server wrote. */
  lemma WholeOfStream(initial: Payload, updates: seq<Update>, json: string -> bool)
    requires Sound(initial, updates, json)
    ensures Whole(Wire(Stream(initial, updates)), json) == Events(Stream(initial, updates))
  {
    var ms := Stream(initial, updates);
    FollowingIsSound(updates, json);
    assert SoundMessages(ms, json);
    assert Clean("snapshot") && Clean("progress") && Clean("terminal");
    forall m | m in ms ensures CleanMessage(m) {
    }
    ParseOfWire(ms);
    AllEffective(ms, json);
  }

  predicate Ends(initial: Payload, updates: seq<Update>) {
    initial.terminal || exists u :: u in updates && u.Update? && u.payload.terminal
  }

  /** Only the last event of the stream is terminal, if one is. */
  lemma {:induction false} TerminalIsLast(updates: seq<Update>)
    ensures var events := Events(Following(updates));
            && (forall i | 0 <= i < |events| - 1 :: events[i].event != "terminal")
            && (events != [] && Last(events).event == "terminal"
                <==> exists u :: u in updates && u.Update? && u.payload.terminal)
  {
    if updates != [] {
      TerminalIsLast(updates[1..]);
      var u0, ms := updates[0], Following(updates);
      if u0.Silence? || !u0.payload.terminal {
        assert ms[1..] == Following(updates[1..]);
        assert forall u :: u in updates <==> u == u0 || u in updates[1..];
      } else {
        assert u0 in updates;
        assert Events(ms[1..]) == [];
      }
    }
  }

  lemma StreamTerminalIsLast(initial: Payload, updates: seq<Update>)
    ensures var events := Events(Stream(initial, updates));
            && events != []
            && (forall i | 0 <= i < |events| - 1 :: events[i].event != "terminal")
            && (Last(events).event == "terminal" <==> Ends(initial, updates))
  {
    TerminalIsLast(updates);
    var ms := Stream(initial, updates);
    assert ms[1..] == if initial.terminal then [Event("terminal", initial.data)] else Following(updates);
    if initial.terminal {
      assert Events(ms[1..][1..]) == [];
    }
  }

  /**
   End to end. However the text is cut, and wherever the connection breaks, the page has acted on a
   prefix of what the server sent and on nothing else. It has seen a terminal frame only when it has
   everything, and with the whole text it has everything and stops exactly when the job has ended.
   */
  lemma PageFollowsServer(initial: Payload, updates: seq<Update>, chunks: seq<string>, json: string -> bool)
    requires Sound(initial, updates, json)
    requires Concat(chunks) <= Wire(Stream(initial, updates))
    ensures var r, events := Reading(chunks, json), Events(Stream(initial, updates));
            && r.delivered <= events
            && (r.sawTerminal ==> r.delivered == events)
            && (Concat(chunks) == Wire(Stream(initial, updates)) ==>
                  r.delivered == events && (r.sawTerminal <==> Ends(initial, updates)))
  {
    var events := Events(Stream(initial, updates));
    WholeOfStream(initial, updates, json);
    StreamTerminalIsLast(initial, updates);
    PageFollowsText(Wire(Stream(initial, updates)), events, chunks, json);
  }

  ghost predicate TerminalOnlyLast(events: seq<Frame>) {
    events != [] && forall i | 0 <= i < |events| - 1 :: events[i].event != "terminal"
  }

  lemma StoppedHasAll(delivered: seq<Frame>, events: seq<Frame>)
    requires delivered <= events && TerminalOnlyLast(events)
    ensures HasTerminal(delivered) ==> delivered == events
    ensures HasTerminal(events) <==> Last(events).event == "terminal"
  {
    if HasTerminal(delivered) {
      var i :| 0 <= i < |delivered| && delivered[i].event == "terminal";
      assert events[i] == delivered[i];
    }
    assert Last(events) == events[|events| - 1];
  }

  lemma {:induction false} WholeIsMonotone(text: string, all: string, json: string -> bool)
    requires text <= all
    ensures Whole(text, json) <= Whole(all, json)
  {
    WholeGrows(text, all[|text|..], json);
    assert text + all[|text|..] == all;
  }

  lemma {:induction false} PageFollowsText(all: string, events: seq<Frame>, chunks: seq<string>, json: string -> bool)
    requires Concat(chunks) <= all && Whole(all, json) == events && TerminalOnlyLast(events)
    ensures var r := Reading(chunks, json);
            && r.delivered <= events
            && (r.sawTerminal ==> r.delivered == events)
            && (Concat(chunks) == all ==>
                  r.delivered == events && (r.sawTerminal <==> Last(events).event == "terminal"))
  {
    WholeIsMonotone(Concat(chunks), all, json);
    ReaderFollows(chunks, json);
    StoppedHasAll(Reading(chunks, json).delivered, events);
  }
}
