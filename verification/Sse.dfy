/**
 The event stream of /v1/query: the parser `streamQuery` of web/src/lib/api.ts and the
 printer `_sse` of app/api/routers/query.py. Chunks are decoded text; JSON is a pair of
 functions.
 */
module Sse {
  import opened Common

  datatype Json =
    | JNull
    | JBool(b: bool)
    | JNumber(n: int)
    | JString(s: string)
    | JArray(items: seq<Json>)
    | JObject(fields: seq<(string, Json)>)

  datatype Event = Event(name: string, data: Json)

  // ---- text primitives of the client -------------------------------------------------------

  /** The characters `String.prototype.trim` removes. */
  predicate IsJsSpace(c: char) {
    var n := c as int;
    9 <= n <= 13 || n == 32 || n == 0xA0 || n == 0x1680 || 0x2000 <= n <= 0x200A || n == 0x2028 || n == 0x2029 ||
    n == 0x202F || n == 0x205F || n == 0x3000 || n == 0xFEFF
  }

  function TrimStart(s: string): string {
    if s != "" && IsJsSpace(s[0]) then TrimStart(s[1..]) else s
  }

  function TrimEnd(s: string): string {
    if s != "" && IsJsSpace(s[|s|-1]) then TrimEnd(s[..|s|-1]) else s
  }

  function Trim(s: string): string {
    TrimEnd(TrimStart(s))
  }

  /** `s.split("\n")` */
  function Lines(s: string): (lines: seq<string>)
    ensures lines != []
  {
    if s == "" then [""]
    else if s[|s|-1] == '\n' then Lines(s[..|s|-1]) + [""]
    else ExtendLast(Lines(s[..|s|-1]), s[|s|-1])
  }

  function ExtendLast(lines: seq<string>, c: char): (r: seq<string>)
    requires lines != []
    ensures |r| == |lines|
  {
    lines[..|lines|-1] + [lines[|lines|-1] + [c]]
  }

  /** Two newlines stand at `i`. */
  predicate BreakAt(s: string, i: nat) {
    i + 1 < |s| && s[i] == '\n' && s[i+1] == '\n'
  }

  /** `s.indexOf("\n\n")` */
  function FirstBreak(s: string, from: nat): (r: Option<nat>)
    ensures r.None? ==> forall i :: from <= i ==> !BreakAt(s, i)
    ensures r.Some? ==> from <= r.value && BreakAt(s, r.value) && forall i :: from <= i < r.value ==> !BreakAt(s, i)
    decreases |s| - from
  {
    if from >= |s| then None else if BreakAt(s, from) then Some(from) else FirstBreak(s, from + 1)
  }

  /** `s.split("\n\n")`: cuts at the leftmost break, then goes on behind it. */
  function Blocks(s: string): (blocks: seq<string>)
    decreases |s|
  {
    match FirstBreak(s, 0)
    case None => [s]
    case Some(i) => [s[..i]] + Blocks(s[i+2..])
  }

  // ---- one block, as the code reads it --------------------------------------------------------

  /** The event name and data lines gathered so far. */
  datatype Gathered = Gathered(name: string, data: seq<string>)

  function Empty(): Gathered {
    Gathered("", [])
  }

  function ReadLine(g: Gathered, line: string): Gathered {
    if "event:" <= line then g.(name := Trim(line[6..]))
    else if "data:" <= line then g.(data := g.data + [Trim(line[5..])])
    else g
  }

  function ReadLines(g: Gathered, lines: seq<string>): Gathered {
    if lines == [] then g else ReadLine(ReadLines(g, lines[..|lines|-1]), lines[|lines|-1])
  }

  /** At most one event: none without a name, none if the data is not JSON. */
  function Dispatch(parse: string -> Option<Json>, g: Gathered): seq<Event> {
    if g.name == "" then []
    else if g.data == [] then [Event(g.name, JObject([]))]
    else
      var parsed := parse(Join(g.data, "\n"));
      if parsed.Some? then [Event(g.name, parsed.value)] else []
  }

  function BlockEvents(parse: string -> Option<Json>, block: string): seq<Event> {
    if Trim(block) == "" then [] else Dispatch(parse, ReadLines(Empty(), Lines(block)))
  }

  function AllBlockEvents(parse: string -> Option<Json>, blocks: seq<string>): seq<Event> {
    if blocks == [] then [] else AllBlockEvents(parse, blocks[..|blocks|-1]) + BlockEvents(parse, blocks[|blocks|-1])
  }

  // ---- reference: the stream read line by line ------------------------------------------------

  /**
   The line-oriented reading of section 9.2.6 of the WHATWG HTML Living Standard, for
   the two fields the client knows: an empty line dispatches what was gathered, and so
   (in this client) does the end of the stream.
   */
  function LineEvents(parse: string -> Option<Json>, g: Gathered, lines: seq<string>): seq<Event>
    decreases |lines|
  {
    if lines == [] then Dispatch(parse, g)
    else if lines[0] == "" then Dispatch(parse, g) + LineEvents(parse, Empty(), lines[1..])
    else LineEvents(parse, ReadLine(g, lines[0]), lines[1..])
  }

  function StreamEvents(parse: string -> Option<Json>, s: string): seq<Event> {
    LineEvents(parse, Empty(), Lines(s))
  }

  // ---- lines of a concatenation -----------------------------------------------------------------

  lemma LinesSnoc(s: string, c: char)
    ensures Lines(s + [c]) == if c == '\n' then Lines(s) + [""] else ExtendLast(Lines(s), c)
  {
    assert (s + [c])[..|s|] == s;
  }

  lemma ExtendLastOf(before: seq<string>, lines: seq<string>, c: char)
    requires lines != []
    ensures ExtendLast(before + lines, c) == before + ExtendLast(lines, c)
  {
    var all := before + lines;
    assert all[..|all|-1] == before + lines[..|lines|-1];
  }

  lemma {:induction false} LinesAtNewline(a: string, b: string)
    ensures Lines(a + "\n" + b) == Lines(a) + Lines(b)
  {
    hide Lines, ExtendLast;
    if b == "" {
      assert a + "\n" + b == a + ['\n'];
      LinesSnoc(a, '\n');
      LinesOfNothing();
    } else {
      var init, c := b[..|b|-1], b[|b|-1];
      LinesAtNewline(a, init);
      assert b == init + [c];
      assert a + "\n" + b == a + "\n" + init + [c];
      LinesSnoc(a + "\n" + init, c);
      LinesSnoc(init, c);
      ExtendLastOf(Lines(a), Lines(init), c);
      assert Lines(a) + Lines(init) + [""] == Lines(a) + (Lines(init) + [""]);
    }
  }

  lemma LinesOfNothing()
    ensures Lines("") == [""]
  {
  }

  lemma LinesAtBreak(a: string, b: string)
    ensures Lines(a + "\n\n" + b) == Lines(a) + ([""] + Lines(b))
  {
    LinesAtNewline(a, "\n" + b);
    assert a + "\n\n" + b == a + "\n" + ("\n" + b);
    LinesAtNewline("", b);
    assert "\n" + b == "" + "\n" + b;
  }

  /** An empty line separates what comes before it from what comes after. */
  lemma {:induction false} CutAtEmptyLine(parse: string -> Option<Json>, g: Gathered, before: seq<string>,
                                          after: seq<string>)
    ensures LineEvents(parse, g, before + ([""] + after)) == LineEvents(parse, g, before) +
        LineEvents(parse, Empty(), after)
    decreases |before|
  {
    var all := before + ([""] + after);
    if before == [] {
      assert all == [""] + after && all[1..] == after;
    } else {
      assert all[0] == before[0] && all[1..] == before[1..] + ([""] + after);
      if before[0] == "" {
        CutAtEmptyLine(parse, Empty(), before[1..], after);
      } else {
        CutAtEmptyLine(parse, ReadLine(g, before[0]), before[1..], after);
      }
    }
  }

  /** Cutting a stream behind a blank-line break cuts its events. */
  lemma CutAtBreak(parse: string -> Option<Json>, a: string, b: string)
    ensures StreamEvents(parse, a + "\n\n" + b) == StreamEvents(parse, a) + StreamEvents(parse, b)
  {
    LinesAtBreak(a, b);
    CutAtEmptyLine(parse, Empty(), Lines(a), Lines(b));
  }

  // ---- blank text holds no event ------------------------------------------------------------------

  ghost predicate AllSpace(s: string) {
    forall i :: 0 <= i < |s| ==> IsJsSpace(s[i])
  }

  lemma {:induction false} TrimStartKeepsOther(s: string, i: nat) returns (j: nat)
    requires i < |s| && !IsJsSpace(s[i])
    ensures j < |TrimStart(s)| && TrimStart(s)[j] == s[i]
  {
    j := i;
    if IsJsSpace(s[0]) {
      j := TrimStartKeepsOther(s[1..], i - 1);
    }
  }

  lemma {:induction false} TrimEndKeepsOther(s: string, i: nat)
    requires i < |s| && !IsJsSpace(s[i])
    ensures TrimEnd(s) != ""
  {
    if i < |s| - 1 && IsJsSpace(s[|s|-1]) {
      TrimEndKeepsOther(s[..|s|-1], i);
    }
  }

  lemma TrimmedAwayIsSpace(s: string)
    requires Trim(s) == ""
    ensures AllSpace(s)
  {
    hide IsJsSpace;
    forall i | 0 <= i < |s| ensures IsJsSpace(s[i]) {
      if !IsJsSpace(s[i]) {
        var j := TrimStartKeepsOther(s, i);
        TrimEndKeepsOther(TrimStart(s), j);
      }
    }
  }

  lemma {:induction false} LinesOfSpace(s: string)
    requires AllSpace(s)
    ensures forall k :: 0 <= k < |Lines(s)| ==> AllSpace(Lines(s)[k])
  {
    hide IsJsSpace;
    if s != "" { LinesOfSpace(s[..|s|-1]); }
  }

  lemma {:induction false} SpaceLinesGatherNothing(g: Gathered, lines: seq<string>)
    requires forall k :: 0 <= k < |lines| ==> AllSpace(lines[k])
    ensures ReadLines(g, lines) == g
  {
    if lines != [] {
      SpaceLinesGatherNothing(g, lines[..|lines|-1]);
      var line := lines[|lines|-1];
      assert "event:"[0] == 'e' && "data:"[0] == 'd';
    }
  }

  lemma BlankBlock(parse: string -> Option<Json>, block: string)
    ensures BlockEvents(parse, block) == Dispatch(parse, ReadLines(Empty(), Lines(block)))
  {
    if Trim(block) == "" {
      TrimmedAwayIsSpace(block);
      LinesOfSpace(block);
      SpaceLinesGatherNothing(Empty(), Lines(block));
    }
  }

  // ---- a block without a break is one run of lines ----------------------------------------------------

  lemma {:induction false} ReadLinesFront(g: Gathered, line: string, rest: seq<string>)
    ensures ReadLines(g, [line] + rest) == ReadLines(ReadLine(g, line), rest)
  {
    var all := [line] + rest;
    if rest == [] {
      assert all == [line] && all[..0] == [];
    } else {
      assert all[..|all|-1] == [line] + rest[..|rest|-1];
      ReadLinesFront(g, line, rest[..|rest|-1]);
    }
  }

  /** Non-empty lines, perhaps with an empty one at the end, dispatch once. */
  lemma {:induction false} OneDispatch(parse: string -> Option<Json>, g: Gathered, lines: seq<string>)
    requires forall k :: 0 <= k < |lines| - 1 ==> lines[k] != ""
    ensures LineEvents(parse, g, lines) == Dispatch(parse, ReadLines(g, lines))
    decreases |lines|
  {
    if lines == [] {
    } else if lines[0] == "" {
      assert lines == [""] && lines[1..] == [] && lines[..0] == [];
    } else {
      OneDispatch(parse, ReadLine(g, lines[0]), lines[1..]);
      assert lines == [lines[0]] + lines[1..];
      ReadLinesFront(g, lines[0], lines[1..]);
    }
  }

  // ---- one run of lines, field by field ---------------------------------------------------------------

  /** `t` is `s` without the space at its two ends. */
  ghost predicate IsTrimmed(s: string, t: string) {
    && (exists i, j :: IsMiddle(s, t, i, j))
    && (t != "" ==> !IsJsSpace(t[0]) && !IsJsSpace(t[|t|-1]))
  }

  ghost predicate IsMiddle(s: string, t: string, i: int, j: int) {
    0 <= i <= j <= |s| && t == s[i..j] && AllSpace(s[..i]) && AllSpace(s[j..])
  }

  lemma {:induction false} TrimStartIs(s: string)
    ensures |TrimStart(s)| <= |s| && TrimStart(s) == s[|s|-|TrimStart(s)|..] && AllSpace(s[..|s|-|TrimStart(s)|])
    ensures TrimStart(s) != "" ==> !IsJsSpace(TrimStart(s)[0])
  {
    if s != "" && IsJsSpace(s[0]) {
      TrimStartIs(s[1..]);
    }
  }

  lemma {:induction false} TrimEndIs(s: string)
    ensures |TrimEnd(s)| <= |s| && TrimEnd(s) == s[..|TrimEnd(s)|] && AllSpace(s[|TrimEnd(s)|..])
    ensures TrimEnd(s) != "" ==> !IsJsSpace(TrimEnd(s)[|TrimEnd(s)|-1])
  {
    if s != "" && IsJsSpace(s[|s|-1]) {
      var init := s[..|s|-1];
      TrimEndIs(init);
      assert s[|TrimEnd(s)|..] == init[|TrimEnd(s)|..] + [s[|s|-1]];
    }
  }

  lemma TrimIs(s: string)
    ensures IsTrimmed(s, Trim(s))
  {
    hide IsJsSpace, TrimStart, TrimEnd;
    TrimStartIs(s);
    TrimEndIs(TrimStart(s));
    var i := |s| - |TrimStart(s)|;
    var j := i + |Trim(s)|;
    assert s[j..] == TrimStart(s)[|Trim(s)|..];
    assert IsMiddle(s, Trim(s), i, j);
    if Trim(s) != "" {
      assert Trim(s)[0] == TrimStart(s)[0];
    }
  }

  /** The event name of some lines: the value of the last event line, nothing if there is none. */
  ghost predicate IsName(lines: seq<string>, name: string) {
    if exists k :: 0 <= k < |lines| && "event:" <= lines[k]
    then exists k :: IsLastEvent(lines, k) && IsTrimmed(lines[k][6..], name)
    else name == ""
  }

  ghost predicate IsLastEvent(lines: seq<string>, k: int) {
    0 <= k < |lines| && "event:" <= lines[k] && forall l :: k < l < |lines| ==> !("event:" <= lines[l])
  }

  /** The data of some lines: the values of all data lines, in order. */
  ghost predicate IsData(lines: seq<string>, at: seq<nat>, data: seq<string>) {
    && |at| == |data|
    && (forall k, l :: 0 <= k < l < |at| ==> at[k] < at[l])
    && (forall k :: 0 <= k < |at| ==>
          at[k] < |lines| && "data:" <= lines[at[k]] && IsTrimmed(lines[at[k]][5..], data[k]))
    && (forall i :: 0 <= i < |lines| && "data:" <= lines[i] ==> i in at)
  }

  /**
   What a run of lines yields: nothing without a name; an empty object without data; else the
   data lines, joined by newlines, as JSON, and nothing if they are not JSON.
   */
  ghost predicate YieldsOf(parse: string -> Option<Json>, name: string, data: seq<string>, events: seq<Event>) {
    if name == "" then events == []
    else if data == [] then events == [Event(name, JObject([]))]
    else match parse(Join(data, "\n"))
         case Some(json) => events == [Event(name, json)]
         case None => events == []
  }

  lemma {:induction false} GatheredIs(lines: seq<string>) returns (at: seq<nat>)
    ensures IsName(lines, ReadLines(Empty(), lines).name) && IsData(lines, at, ReadLines(Empty(), lines).data)
  {
    hide IsTrimmed, Trim, IsName, IsData;
    if lines == [] {
      at := [];
      NothingGathered();
    } else {
      var init, line := lines[..|lines|-1], lines[|lines|-1];
      at := GatheredIs(init);
      var g := ReadLines(Empty(), init);
      assert lines == init + [line];
      NameNext(init, line, g.name);
      DataNext(init, line, at, g.data);
      if "data:" <= line {
        at := at + [|init|];
      }
    }
  }

  lemma NothingGathered()
    ensures IsName([], "") && IsData([], [], [])
  {
  }

  lemma NameNext(lines: seq<string>, line: string, name: string)
    requires IsName(lines, name)
    ensures IsName(lines + [line], if "event:" <= line then Trim(line[6..]) else name)
  {
    hide IsTrimmed, Trim;
    var more := lines + [line];
    assert forall k :: 0 <= k < |lines| ==> more[k] == lines[k];
    assert more[|lines|] == line;
    if "event:" <= line {
      TrimIs(line[6..]);
      assert IsLastEvent(more, |lines|);
    } else if exists k :: 0 <= k < |lines| && "event:" <= lines[k] {
      var k :| IsLastEvent(lines, k) && IsTrimmed(lines[k][6..], name);
      assert IsLastEvent(more, k);
    }
  }

  /** No line is both. */
  lemma DataNext(lines: seq<string>, line: string, at: seq<nat>, data: seq<string>)
    requires IsData(lines, at, data)
    ensures "data:" <= line ==> !("event:" <= line)
    ensures "data:" <= line ==> IsData(lines + [line], at + [|lines|], data + [Trim(line[5..])])
    ensures !("data:" <= line) ==> IsData(lines + [line], at, data)
  {
    hide IsTrimmed, Trim;
    var more, at' := lines + [line], at + [|lines|];
    assert forall k :: 0 <= k < |lines| ==> more[k] == lines[k];
    assert "data:"[0] == 'd' && "event:"[0] == 'e';
    if "data:" <= line {
      TrimIs(line[5..]);
      forall i | 0 <= i < |more| && "data:" <= more[i] ensures i in at' {
        if i < |lines| {
          assert i in at;
        } else {
          assert at'[|at|] == i;
        }
      }
    }
  }

  /** Lines without an empty one among them, up to the end of the stream or an empty line, are one event at most. */
  lemma RunYields(parse: string -> Option<Json>, lines: seq<string>)
    returns (name: string, at: seq<nat>, data: seq<string>)
    requires forall k :: 0 <= k < |lines| ==> lines[k] != ""
    ensures IsName(lines, name) && IsData(lines, at, data)
    ensures YieldsOf(parse, name, data, LineEvents(parse, Empty(), lines))
    ensures forall after: seq<string> ::
      LineEvents(parse, Empty(), lines + ([""] + after)) ==
      LineEvents(parse, Empty(), lines) + LineEvents(parse, Empty(), after)
  {
    hide IsName, IsData, Join;
    at := GatheredIs(lines);
    name, data := ReadLines(Empty(), lines).name, ReadLines(Empty(), lines).data;
    OneDispatch(parse, Empty(), lines);
    forall after: seq<string>
      ensures LineEvents(parse, Empty(), lines + ([""] + after)) ==
              LineEvents(parse, Empty(), lines) + LineEvents(parse, Empty(), after)
    {
      CutAtEmptyLine(parse, Empty(), lines, after);
    }
  }

  /** Text without a break has empty lines only at its two ends. */
  lemma {:induction false} EmptyLinesAtEnds(s: string)
    requires forall i :: !BreakAt(s, i)
    ensures forall k :: 0 < k < |Lines(s)| - 1 ==> Lines(s)[k] != ""
    ensures Lines(s)[|Lines(s)|-1] == "" ==> s == "" || s[|s|-1] == '\n'
  {
    if s != "" {
      var init := s[..|s|-1];
      forall i ensures !BreakAt(init, i) { assert !BreakAt(s, i); }
      EmptyLinesAtEnds(init);
      var lines := Lines(init);
      if s[|s|-1] == '\n' {
        assert |init| > 0 ==> !BreakAt(s, |init| - 1);
        if init == "" { assert lines == [""]; }
      }
    }
  }

  lemma BlockIsOneRun(parse: string -> Option<Json>, s: string)
    requires forall i :: !BreakAt(s, i)
    ensures StreamEvents(parse, s) == BlockEvents(parse, s)
  {
    BlankBlock(parse, s);
    EmptyLinesAtEnds(s);
    var lines := Lines(s);
    if lines[0] == "" {
      var rest := lines[1..];
      assert lines == [""] + rest;
      forall k | 0 <= k < |rest| - 1 ensures rest[k] != "" { assert rest[k] == lines[k+1]; }
      ReadLinesFront(Empty(), "", rest);
      OneDispatch(parse, Empty(), rest);
    } else {
      OneDispatch(parse, Empty(), lines);
    }
  }

  lemma NoBreakBefore(s: string, i: nat)
    requires i <= |s| && forall k: nat :: k < i ==> !BreakAt(s, k)
    ensures forall k: nat :: !BreakAt(s[..i], k)
  {
    forall k: nat ensures !BreakAt(s[..i], k) {
      if k + 1 < i {
        assert !BreakAt(s, k);
        assert s[..i][k] == s[k] && s[..i][k+1] == s[k+1];
      }
    }
  }

  lemma {:induction false} BlocksFront(parse: string -> Option<Json>, block: string, rest: seq<string>)
    ensures AllBlockEvents(parse, [block] + rest) == BlockEvents(parse, block) + AllBlockEvents(parse, rest)
  {
    hide BlockEvents;
    var all := [block] + rest;
    if rest == [] {
      assert all == [block] && all[..0] == [];
    } else {
      BlocksFront(parse, block, rest[..|rest|-1]);
      assert all[..|all|-1] == [block] + rest[..|rest|-1];
    }
  }

  /** Splitting at double newlines and reading each block is reading the stream line by line. */
  lemma {:induction false} SplitIsStream(parse: string -> Option<Json>, s: string)
    ensures AllBlockEvents(parse, Blocks(s)) == StreamEvents(parse, s)
    decreases |s|
  {
    match FirstBreak(s, 0)
    case None =>
      BlockIsOneRun(parse, s);
      assert AllBlockEvents(parse, [s][..0]) == [];
    case Some(i) =>
      var a, b := s[..i], s[i+2..];
      assert s == a + "\n\n" + b;
      CutAtBreak(parse, a, b);
      NoBreakBefore(s, i);
      BlockIsOneRun(parse, a);
      SplitIsStream(parse, b);
      BlocksFront(parse, a, Blocks(b));
  }

  // ---- the code ----------------------------------------------------------------------------------------

  /** The inner loop of `flush`: the fields of one block. */
  method GatherBlock(block: string) returns (g: Gathered)
    ensures g == ReadLines(Empty(), Lines(block))
  {
    var lines := Lines(block);
    g := Empty();
    for l := 0 to |lines|
      invariant g == ReadLines(Empty(), lines[..l])
    {
      assert lines[..l+1][..l] == lines[..l];
      g := ReadLine(g, lines[l]);
    }
    assert lines[..|lines|] == lines;
  }

  /** `flush` */
  method Flush(parse: string -> Option<Json>, chunk: string) returns (events: seq<Event>)
    ensures events == StreamEvents(parse, chunk)
  {
    hide Trim, Lines, Dispatch, ReadLines, Blocks, StreamEvents;
    var blocks := Blocks(chunk);
    events := [];
    for b := 0 to |blocks|
      invariant events == AllBlockEvents(parse, blocks[..b])
    {
      var block := blocks[b];
      assert blocks[..b+1][..b] == blocks[..b];
      if Trim(block) != "" {
        var g := GatherBlock(block);
        events := events + Dispatch(parse, g);
      }
    }
    assert blocks[..|blocks|] == blocks;
    SplitIsStream(parse, chunk);
  }

  /** `buffer.lastIndexOf("\n\n")` */
  function LastBreak(s: string, upTo: nat): (r: Option<nat>)
    ensures r.None? ==> forall i :: 0 <= i < upTo ==> !BreakAt(s, i)
    ensures r.Some? ==> r.value < upTo && BreakAt(s, r.value) && forall i :: r.value < i < upTo ==> !BreakAt(s, i)
  {
    if upTo == 0 then None else if BreakAt(s, upTo - 1) then Some(upTo - 1) else LastBreak(s, upTo - 1)
  }

  /** Everything up to the last break can be parsed now; the rest waits in the buffer. */
  lemma ReadyPart(parse: string -> Option<Json>, buffer: string, boundary: nat, later: string)
    requires BreakAt(buffer, boundary)
    ensures StreamEvents(parse, buffer + later) ==
            StreamEvents(parse, buffer[..boundary+2]) + StreamEvents(parse, buffer[boundary+2..] + later)
  {
    var a := buffer[..boundary];
    assert buffer[..boundary+2] == a + "\n\n" + "";
    assert buffer + later == a + "\n\n" + (buffer[boundary+2..] + later);
    CutAtBreak(parse, a, "");
    CutAtBreak(parse, a, buffer[boundary+2..] + later);
    NoEvents(parse);
  }

  lemma NoEvents(parse: string -> Option<Json>)
    ensures StreamEvents(parse, "") == []
  {
  }

  /** What has been yielded, then what the buffer and any later text hold, are the events of all of it. */
  ghost predicate Pending(parse: string -> Option<Json>, read: string, events: seq<Event>, buffer: string) {
    forall later :: StreamEvents(parse, read + later) == events + StreamEvents(parse, buffer + later)
  }

  lemma BufferChunk(parse: string -> Option<Json>, read: string, events: seq<Event>, buffer: string, chunk: string)
    requires Pending(parse, read, events, buffer)
    ensures Pending(parse, read + chunk, events, buffer + chunk)
  {
    hide StreamEvents;
    forall later
      ensures StreamEvents(parse, read + chunk + later) == events + StreamEvents(parse, buffer + chunk + later)
    {
      assert read + chunk + later == read + (chunk + later);
      assert buffer + chunk + later == buffer + (chunk + later);
    }
  }

  lemma FlushReady(parse: string -> Option<Json>, read: string, events: seq<Event>, buffer: string, boundary: nat)
    requires Pending(parse, read, events, buffer) && BreakAt(buffer, boundary)
    ensures Pending(parse, read, events + StreamEvents(parse, buffer[..boundary+2]), buffer[boundary+2..])
  {
    hide StreamEvents;
    var ready := StreamEvents(parse, buffer[..boundary+2]);
    forall later
      ensures StreamEvents(parse, read + later) == events + ready + StreamEvents(parse, buffer[boundary+2..] + later)
    {
      ReadyPart(parse, buffer, boundary, later);
    }
  }

  /** `streamQuery`: the read loop over the decoded chunks. */
  method StreamQuery(parse: string -> Option<Json>, chunks: seq<string>) returns (events: seq<Event>)
    ensures events == StreamEvents(parse, Concat(chunks))
  {
    hide StreamEvents, Concat, Trim, Pending;
    events := [];
    var buffer := "";
    StartOfStream(parse);
    for c := 0 to |chunks|
      invariant Pending(parse, Concat(chunks[..c]), events, buffer)
    {
      ConcatStep(chunks, c);
      BufferChunk(parse, Concat(chunks[..c]), events, buffer, chunks[c]);
      buffer := buffer + chunks[c];
      var boundary := LastBreak(buffer, |buffer|);
      if boundary.Some? {
        FlushReady(parse, Concat(chunks[..c+1]), events, buffer, boundary.value);
        var ready := buffer[..boundary.value+2];
        buffer := buffer[boundary.value+2..];
        var more := Flush(parse, ready);
        events := events + more;
      }
    }
    assert chunks[..|chunks|] == chunks;
    EndOfStream(parse, Concat(chunks), events, buffer);
    if Trim(buffer) != "" {
      var more := Flush(parse, buffer);
      events := events + more;
    } else {
      BlankStream(parse, buffer);
    }
  }

  lemma StartOfStream(parse: string -> Option<Json>)
    ensures Pending(parse, Concat([]), [], "")
  {
  }

  lemma EndOfStream(parse: string -> Option<Json>, read: string, events: seq<Event>, buffer: string)
    requires Pending(parse, read, events, buffer)
    ensures StreamEvents(parse, read) == events + StreamEvents(parse, buffer)
  {
    hide StreamEvents;
    assert read + "" == read && buffer + "" == buffer;
  }

  lemma ConcatStep(chunks: seq<string>, c: nat)
    requires c < |chunks|
    ensures Concat(chunks[..c+1]) == Concat(chunks[..c]) + chunks[c]
  {
    assert chunks[..c+1][..c] == chunks[..c];
  }

  lemma {:induction false} BlankStream(parse: string -> Option<Json>, s: string)
    requires Trim(s) == ""
    ensures StreamEvents(parse, s) == []
  {
    TrimmedAwayIsSpace(s);
    LinesOfSpace(s);
    SpaceLinesDispatchNothing(parse, Lines(s));
  }

  lemma {:induction false} SpaceLinesDispatchNothing(parse: string -> Option<Json>, lines: seq<string>)
    requires forall k :: 0 <= k < |lines| ==> AllSpace(lines[k])
    ensures LineEvents(parse, Empty(), lines) == []
  {
    if lines != [] {
      SpaceLinesDispatchNothing(parse, lines[1..]);
      SpaceLinesGatherNothing(Empty(), [lines[0]]);
      assert [lines[0]][..0] == [];
      assert ReadLines(Empty(), [lines[0]]) == ReadLine(Empty(), lines[0]);
    }
  }

  /** However the same text is cut into chunks, the parser yields the same events. */
  method ChunkIndependence(parse: string -> Option<Json>, chunks: seq<string>, others: seq<string>)
    returns (a: seq<Event>, b: seq<Event>)
    requires Concat(chunks) == Concat(others)
    ensures a == b
  {
    a := StreamQuery(parse, chunks);
    b := StreamQuery(parse, others);
  }

  // ---- printing and parsing -------------------------------------------------------------------------------

  datatype Frame = Message(event: Event) | KeepAlive

  function Print(dumps: Json -> string, f: Frame): string {
    match f
    case Message(e) => "event: " + e.name + "\ndata: " + dumps(e.data) + "\n\n"
    case KeepAlive => ": keep-alive\n\n"
  }

  function PrintAll(dumps: Json -> string, frames: seq<Frame>): string {
    if frames == [] then "" else Print(dumps, frames[0]) + PrintAll(dumps, frames[1..])
  }

  function MessagesOf(frames: seq<Frame>): seq<Event> {
    if frames == [] then [] else (if frames[0].Message? then [frames[0].event] else []) + MessagesOf(frames[1..])
  }

  /** One line of text that trimming leaves alone. */
  ghost predicate CleanLine(s: string) {
    '\n' !in s && Trim(s) == s
  }

  /** The printer's JSON has no raw newline and no outer space, and the parser inverts it. */
  ghost predicate InverseOn(parse: string -> Option<Json>, dumps: Json -> string, e: Event) {
    && e.name != "" && CleanLine(e.name)
    && CleanLine(dumps(e.data)) && parse(dumps(e.data)) == Some(e.data)
  }

  lemma {:induction false} OneLine(s: string)
    requires '\n' !in s
    ensures Lines(s) == [s]
  {
    if s != "" {
      OneLine(s[..|s|-1]);
      assert s[..|s|-1] + [s[|s|-1]] == s;
    }
  }

  lemma TrimLeadingBlank(s: string)
    requires Trim(s) == s
    ensures Trim(" " + s) == s
  {
    assert (" " + s)[1..] == s;
  }

  /** A frame without its closing break. */
  function FrameBody(dumps: Json -> string, f: Frame): string {
    match f
    case Message(e) => "event: " + e.name + "\n" + ("data: " + dumps(e.data))
    case KeepAlive => ": keep-alive"
  }

  lemma FrameIsBody(dumps: Json -> string, f: Frame)
    ensures Print(dumps, f) == FrameBody(dumps, f) + "\n\n"
  {
    if f.Message? {
      var first, second := "event: " + f.event.name, "data: " + dumps(f.event.data);
      assert Print(dumps, f) == first + "\ndata: " + dumps(f.event.data) + "\n\n";
      assert first + "\ndata: " + dumps(f.event.data) == first + "\n" + second;
    }
  }

  lemma FrameEvents(parse: string -> Option<Json>, dumps: Json -> string, f: Frame)
    requires f.Message? ==> InverseOn(parse, dumps, f.event)
    ensures StreamEvents(parse, FrameBody(dumps, f)) == if f.Message? then [f.event] else []
  {
    hide Lines;
    match f
    case KeepAlive =>
      var body := ": keep-alive";
      OneLine(body);
      CommentLine(parse, body);
    case Message(e) =>
      var first, second := "event: " + e.name, "data: " + dumps(e.data);
      OneLine(first);
      OneLine(second);
      LinesAtNewline(first, second);
      MessageLines(parse, e, dumps);
  }

  lemma CommentLine(parse: string -> Option<Json>, line: string)
    requires line != "" && line[0] == ':'
    ensures LineEvents(parse, Empty(), [line]) == []
  {
    assert "event:"[0] == 'e' && "data:"[0] == 'd';
    assert ReadLine(Empty(), line) == Empty();
    assert [line][1..] == [];
    assert LineEvents(parse, Empty(), []) == [];
  }

  lemma MessageLines(parse: string -> Option<Json>, e: Event, dumps: Json -> string)
    requires InverseOn(parse, dumps, e)
    ensures LineEvents(parse, Empty(), ["event: " + e.name] + ["data: " + dumps(e.data)]) == [e]
  {
    hide Trim;
    var first, second := "event: " + e.name, "data: " + dumps(e.data);
    var lines := [first] + [second];
    assert first[..6] == "event:" && first[6..] == " " + e.name;
    assert second[..5] == "data:" && second[5..] == " " + dumps(e.data);
    assert "event:"[0] == 'e' && second[0] == 'd';
    TrimLeadingBlank(e.name);
    TrimLeadingBlank(dumps(e.data));
    assert ReadLine(Empty(), first) == Gathered(e.name, []);
    assert ReadLine(Gathered(e.name, []), second) == Gathered(e.name, [dumps(e.data)]);
    assert lines[1..] == [second] && [second][1..] == [];
    assert LineEvents(parse, Gathered(e.name, [dumps(e.data)]), []) == [e];
    assert LineEvents(parse, Gathered(e.name, []), [second]) == [e];
  }

  /** Parsing what the printer wrote gives the events back, keep-alive comments in between ignored. */
  lemma {:induction false} PrintedStreamReadsBack(parse: string -> Option<Json>, dumps: Json -> string,
                                                  frames: seq<Frame>)
    requires forall k :: 0 <= k < |frames| && frames[k].Message? ==> InverseOn(parse, dumps, frames[k].event)
    ensures StreamEvents(parse, PrintAll(dumps, frames)) == MessagesOf(frames)
  {
    hide StreamEvents, InverseOn, Print, FrameBody;
    if frames == [] {
      NoEvents(parse);
    } else {
      var rest := frames[1..];
      PrintedStreamReadsBack(parse, dumps, rest);
      FrameEvents(parse, dumps, frames[0]);
      FrameIsBody(dumps, frames[0]);
      CutAtBreak(parse, FrameBody(dumps, frames[0]), PrintAll(dumps, rest));
    }
  }

  /** The round trip through the parser itself, under any chunking of the printed stream. */
  method RoundTrip(parse: string -> Option<Json>, dumps: Json -> string, frames: seq<Frame>, chunks: seq<string>)
    returns (events: seq<Event>)
    requires forall k :: 0 <= k < |frames| && frames[k].Message? ==> InverseOn(parse, dumps, frames[k].event)
    requires Concat(chunks) == PrintAll(dumps, frames)
    ensures events == MessagesOf(frames)
  {
    events := StreamQuery(parse, chunks);
    PrintedStreamReadsBack(parse, dumps, frames);
  }
}
