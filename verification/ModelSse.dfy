/** The incremental framer of a model's event stream. Its chunk-fed loop is proved against a
    character automaton, the automaton against a line-by-line reading of sections 9.2.5 and
    9.2.6 of the WHATWG HTML Living Standard. */
module ModelSse {
  import opened Basics
  import opened TextLines

  datatype Frame = Frame(data: string, event: string, lastEventId: string)

  /** What the framer remembers between chunks; `pending` is the unfinished line. */
  datatype State = State(pending: string, data: seq<string>, event: string, lastEventId: string, afterCr: bool)
  {
    /** A carriage return ends its line, so nothing is pending right after one. */
    predicate Valid() { (afterCr ==> pending == "") && NoLineEnd(pending) }
  }

  const INITIAL := State("", [], "", "", false)

  /** Where the first colon is, or the length of the line. */
  function ColonAt(line: string): (k: nat)
    ensures k <= |line| && (forall i :: 0 <= i < k ==> line[i] != ':') && (k < |line| ==> line[k] == ':')
  {
    if line == "" || line[0] == ':' then 0 else 1 + ColonAt(line[1..])
  }

  function FieldName(line: string): string { line[..ColonAt(line)] }

  function FieldValue(line: string): string {
    var rest := if ColonAt(line) < |line| then line[ColonAt(line) + 1..] else "";
    if rest != "" && rest[0] == ' ' then rest[1..] else rest
  }

  predicate DataLine(line: string) { FieldName(line) == "data" }

  // ------------------------------------------------------- the character automaton

  /** The effect of one finished line. */
  function Dispatch(s: State, line: string): (State, seq<Frame>) {
    if line == "" then
      (s.(data := [], event := ""),
       if s.data == [] then [] else [Frame(Join(s.data), if s.event == "" then "message" else s.event, s.lastEventId)])
    else if line[0] == ':' then (s, [])
    else if FieldName(line) == "data" then (s.(data := s.data + [FieldValue(line)]), [])
    else if FieldName(line) == "event" then (s.(event := FieldValue(line)), [])
    else if FieldName(line) == "id" && '\0' !in FieldValue(line) then (s.(lastEventId := FieldValue(line)), [])
    else (s, [])
  }

  function Step(s: State, c: char): (State, seq<Frame>) {
    if c == '\n' && s.afterCr then (s.(afterCr := false), [])
    else if LineEnd(c) then Dispatch(s.(pending := "", afterCr := c == '\r'), s.pending)
    else (s.(pending := s.pending + [c], afterCr := false), [])
  }

  function Run(s: State, text: string): (State, seq<Frame>)
    decreases |text|
  {
    if text == "" then (s, [])
    else
      var head := Step(s, text[0]);
      var rest := Run(head.0, text[1..]);
      (rest.0, head.1 + rest.1)
  }

  lemma {:induction false} RunValid(s: State, text: string)
    requires s.Valid()
    ensures Run(s, text).0.Valid()
    decreases |text|
  {
    if text != "" { RunValid(Step(s, text[0]).0, text[1..]); }
  }

  lemma {:induction false} RunConcat(s: State, a: string, b: string)
    ensures Run(s, a + b).0 == Run(Run(s, a).0, b).0
    ensures Run(s, a + b).1 == Run(s, a).1 + Run(Run(s, a).0, b).1
    decreases |a|
  {
    hide Step;
    if a == "" {
      assert a + b == b && [] + Run(s, b).1 == Run(s, b).1;
    } else {
      assert (a + b)[1..] == a[1..] + b;
      RunConcat(Step(s, a[0]).0, a[1..], b);
    }
  }

  /** Characters that end no line are only collected. */
  lemma {:induction false} RunPlain(s: State, text: string)
    requires text != "" && NoLineEnd(text)
    ensures Run(s, text) == (s.(pending := s.pending + text, afterCr := false), [])
    decreases |text|
  {
    assert text[0] in text;
    var s' := Step(s, text[0]).0;
    assert s.pending + text == s'.pending + text[1..];
    if text[1..] == "" {
      assert Run(s', text[1..]) == (s', []);
      assert s' == s.(pending := s.pending + text, afterCr := false);
    } else {
      RunPlain(s', text[1..]);
    }
    assert Step(s, text[0]).1 + Run(s', text[1..]).1 == [];
  }

  // ------------------------------------------------------------------ chunking

  function RunChunks(s: State, chunks: seq<string>): (State, seq<Frame>)
    decreases |chunks|
  {
    if chunks == [] then (s, [])
    else
      var head := Run(s, chunks[0]);
      var rest := RunChunks(head.0, chunks[1..]);
      (rest.0, head.1 + rest.1)
  }

  /** However the text is cut, empty pieces and cuts inside a CR LF pair included, the frames
      and the state are those of the whole. */
  lemma {:induction false} ChunksDoNotMatter(s: State, chunks: seq<string>)
    ensures RunChunks(s, chunks) == Run(s, Concat(chunks))
    decreases |chunks|
  {
    if chunks != [] {
      ChunksDoNotMatter(Run(s, chunks[0]).0, chunks[1..]);
      RunConcat(s, chunks[0], Concat(chunks[1..]));
    }
  }

  // -------------------------------------------------------- the standard's reading

  /** The interpretation buffers of section 9.2.6. */
  datatype Buffers = Buffers(data: string, eventType: string, lastEventId: string)

  /** Where the first line end of the text is, or its length. */
  function EndAt(text: string): (k: nat)
    ensures k <= |text| && NoLineEnd(text[..k]) && (k < |text| ==> LineEnd(text[k]))
  {
    if text == "" || LineEnd(text[0]) then 0
    else
      var k := 1 + EndAt(text[1..]);
      assert text[..k] == [text[0]] + text[1..][..k - 1];
      k
  }

  /** Section 9.2.5: a line ends with a CR LF pair, a lone LF or a lone CR. */
  function AfterEnd(text: string, k: nat): (next: nat)
    requires k < |text| && LineEnd(text[k])
    ensures k < next <= |text| && text[k..next] in {"\r\n", "\n", "\r"}
    ensures text[k..next] == "\r" ==> !("\n" <= text[next..])
  {
    var next := if text[k] == '\r' && k + 1 < |text| && text[k + 1] == '\n' then k + 2 else k + 1;
    assert text[k..next] == if next == k + 2 then "\r\n" else [text[k]];
    next
  }

  /** The finished lines of a text, and what is left over. */
  function Lines(text: string): (seq<string>, string)
    decreases |text|
  {
    var k := EndAt(text);
    if k == |text| then ([], text)
    else
      var rest := Lines(text[AfterEnd(text, k)..]);
      ([text[..k]] + rest.0, rest.1)
  }

  /** Section 9.2.6: one line. */
  function Interpret(b: Buffers, line: string): (Buffers, seq<Frame>) {
    if line == "" then
      if b.data == "" then (b.(eventType := ""), [])
      else
        var data := if b.data[|b.data| - 1] == '\n' then b.data[..|b.data| - 1] else b.data;
        (b.(data := "", eventType := ""), [Frame(data, if b.eventType == "" then "message" else b.eventType, b.lastEventId)])
    else if line[0] == ':' then (b, [])
    else (Process(b, FieldName(line), FieldValue(line)), [])
  }

  function Process(b: Buffers, field: string, value: string): Buffers {
    match field
    case "event" => b.(eventType := value)
    case "data" => b.(data := b.data + value + "\n")
    case "id" => if '\0' in value then b else b.(lastEventId := value)
    case _ => b
  }

  function InterpretAll(b: Buffers, lines: seq<string>): (Buffers, seq<Frame>)
    decreases |lines|
  {
    if lines == [] then (b, [])
    else
      var head := Interpret(b, lines[0]);
      var rest := InterpretAll(head.0, lines[1..]);
      (rest.0, head.1 + rest.1)
  }

  /** The data buffer that a list of data lines stands for. */
  function Terminated(lines: seq<string>): string {
    if lines == [] then "" else lines[0] + "\n" + Terminated(lines[1..])
  }

  function BuffersOf(s: State): Buffers { Buffers(Terminated(s.data), s.event, s.lastEventId) }

  lemma {:induction false} TerminatedOneMore(lines: seq<string>, line: string)
    ensures Terminated(lines + [line]) == Terminated(lines) + line + "\n"
  {
    if lines != [] {
      assert (lines + [line])[1..] == lines[1..] + [line];
      TerminatedOneMore(lines[1..], line);
    }
  }

  lemma {:induction false} TerminatedJoin(lines: seq<string>)
    requires lines != []
    ensures Terminated(lines) == Join(lines) + "\n"
  {
    if |lines| > 1 { TerminatedJoin(lines[1..]); }
  }

  lemma DispatchInterprets(s: State, line: string)
    ensures Interpret(BuffersOf(s), line) == (BuffersOf(Dispatch(s, line).0), Dispatch(s, line).1)
  {
    if line == "" {
      if s.data != [] {
        TerminatedJoin(s.data);
        assert (Join(s.data) + "\n")[..|Join(s.data)|] == Join(s.data);
      }
    } else if line[0] != ':' && FieldName(line) == "data" {
      TerminatedOneMore(s.data, FieldValue(line));
    }
  }

  /** The framer reads a text exactly as the standard does: same frames, same buffers, and
      the unfinished line is what the standard has not seen the end of. */
  lemma {:induction false} FollowsTheStandard(s: State, text: string)
    requires s.Valid() && s.pending == "" && !s.afterCr
    ensures var read := Lines(text);
            var meant := InterpretAll(BuffersOf(s), read.0);
            && Run(s, text).1 == meant.1 && BuffersOf(Run(s, text).0) == meant.0
            && Run(s, text).0.pending == read.1
    decreases |text|
  {
    hide Interpret, Step, Terminated, Dispatch;
    var k := EndAt(text);
    if k == |text| {
      assert text[..k] == text;
      if text != "" { RunPlain(s, text); }
    } else {
      var next := AfterEnd(text, k);
      RunLine(s, text[..k], text[k..next]);
      assert "" + text[..k] == text[..k];
      DispatchInterprets(s, text[..k]);
      assert text == text[..k] + text[k..next] + text[next..];
      RunConcat(s, text[..k] + text[k..next], text[next..]);
      var s' := Run(s, text[..k] + text[k..next]).0;
      if s'.afterCr {
        SkippedCr(s', text[next..]);
        FollowsTheStandard(s'.(afterCr := false), text[next..]);
      } else {
        FollowsTheStandard(s', text[next..]);
      }
    }
  }

  /** What a line does does not depend on how the line before it ended. */
  lemma DispatchAfter(s: State, line: string, pending: string, afterCr: bool)
    ensures Dispatch(s.(pending := pending, afterCr := afterCr), line) ==
            (Dispatch(s, line).0.(pending := pending, afterCr := afterCr), Dispatch(s, line).1)
  {
  }

  lemma RunOne(s: State, c: char)
    ensures Run(s, [c]) == Step(s, c)
  {
    assert [c][1..] == "";
    assert Step(s, c).1 + [] == Step(s, c).1;
  }

  lemma RunEnd(s: State, end: string)
    requires end in {"\r\n", "\n", "\r"} && (s.afterCr ==> end[0] != '\n')
    ensures Run(s, end) == (Dispatch(s, s.pending).0.(pending := "", afterCr := end == "\r"), Dispatch(s, s.pending).1)
  {
    hide Dispatch, Run;
    DispatchAfter(s, s.pending, "", end[0] == '\r');
    RunOne(s, end[0]);
    if end == "\r\n" {
      RunOne(Step(s, '\r').0, '\n');
      RunConcat(s, "\r", "\n");
      assert "\r" + "\n" == end;
      assert Dispatch(s, s.pending).1 + [] == Dispatch(s, s.pending).1;
    }
  }

  /** The rest of a line with its end. */
  lemma RunLine(s: State, line: string, end: string)
    requires NoLineEnd(line) && end in {"\r\n", "\n", "\r"}
    requires s.afterCr ==> (line + end)[0] != '\n'
    ensures Run(s, line + end) == (Dispatch(s, s.pending + line).0.(pending := "", afterCr := end == "\r"),
                                   Dispatch(s, s.pending + line).1)
  {
    hide Dispatch, Run;
    if line == "" {
      assert line + end == end && s.pending + line == s.pending;
      RunEnd(s, end);
    } else {
      var whole := s.pending + line;
      RunPlain(s, line);
      RunConcat(s, line, end);
      RunEnd(s.(pending := whole, afterCr := false), end);
      DispatchAfter(s, whole, whole, false);
      assert [] + Dispatch(s, whole).1 == Dispatch(s, whole).1;
    }
  }

  /** A LF right after a CR belongs to the same line end. */
  lemma SkippedLf(s: State, text: string)
    requires s.afterCr && text != "" && text[0] == '\n'
    ensures Run(s, text) == Run(s.(afterCr := false), text[1..])
  {
    assert [] + Run(s.(afterCr := false), text[1..]).1 == Run(s.(afterCr := false), text[1..]).1;
  }

  /** Having seen a CR changes nothing unless a LF comes next. */
  lemma SkippedCr(s: State, text: string)
    requires s.afterCr && (text != "" ==> text[0] != '\n')
    ensures Run(s, text).1 == Run(s.(afterCr := false), text).1
    ensures text != "" ==> Run(s, text) == Run(s.(afterCr := false), text)
  {
  }

  // ------------------------------------------------------------- end of stream

  /** What `finish` turns down. */
  predicate Unfinished(s: State) { s.data != [] || s.pending == "data" || "data:" <= s.pending }

  /** `finish` rejects exactly the states in which two more line feeds would complete a frame. */
  lemma UnfinishedExactlyWhenAFrameIsOpen(s: State)
    requires s.Valid()
    ensures |Run(s, "\n\n").1| == (if Unfinished(s) then 1 else 0)
  {
    var once := Step(s, '\n');
    var twice := Step(once.0, '\n');
    assert "\n\n"[1..] == "\n" && "\n"[1..] == "";
    assert Run(s, "\n\n").1 == once.1 + twice.1;
    DataLines(s.pending);
  }

  lemma DataLines(line: string)
    ensures DataLine(line) <==> line == "data" || "data:" <= line
  {
    if line == "data" || "data:" <= line {
      assert line[4..] == "" || line[4] == ':';
      assert forall i :: 0 <= i < 4 ==> line[i] == "data"[i];
    }
    if DataLine(line) {
      assert line == "data" + line[4..] && (line[4..] == "" || line[4] == ':');
    }
  }

  // ------------------------------------------------------------ the chunk-fed loop

  /** The framer is at a line end of the chunk: it has read up to it and goes on behind it. */
  lemma RunNext(s: State, rest: string, k: nat, next: nat)
    requires !s.afterCr && k == EndAt(rest) < |rest| && next == AfterEnd(rest, k)
    ensures var s' := Dispatch(s, s.pending + rest[..k]).0.(pending := "", afterCr := rest[k..next] == "\r" && next == |rest|);
            && Run(s, rest).0 == Run(s', rest[next..]).0
            && Run(s, rest).1 == Dispatch(s, s.pending + rest[..k]).1 + Run(s', rest[next..]).1
  {
    hide Run, Dispatch, EndAt, AfterEnd;
    var line, end := rest[..k], rest[k..next];
    assert rest == (line + end) + rest[next..];
    RunLine(s, line, end);
    RunConcat(s, line + end, rest[next..]);
    var after := Run(s, line + end).0;
    if after.afterCr && next < |rest| { SkippedCr(after, rest[next..]); }
  }

  lemma RunEmpty(s: State)
    ensures Run(s, "") == (s, [])
  {
  }

  class Framer {
    var parts: seq<string>
    var data: seq<string>
    var event: string
    var lastEventId: string
    var afterCr: bool

    function View(): State
      reads this
    {
      State(Concat(parts), data, event, lastEventId, afterCr)
    }

    ghost predicate Valid() reads this { View().Valid() }

    constructor ()
      ensures View() == INITIAL && Valid()
    {
      parts, data, event, lastEventId, afterCr := [], [], "", "", false;
    }

    method Line(line: string) returns (frames: seq<Frame>)
      modifies `data, `event, `lastEventId
      ensures View() == Dispatch(old(View()), line).0 && frames == Dispatch(old(View()), line).1
    {
      frames := [];
      if line == "" {
        if data != [] { frames := [Frame(Join(data), if event == "" then "message" else event, lastEventId)]; }
        data, event := [], "";
        return;
      }
      if line[0] == ':' { return; }
      var name, value := FieldName(line), FieldValue(line);
      if name == "data" { data := data + [value]; }
      else if name == "event" { event := value; }
      else if name == "id" && '\0' !in value { lastEventId := value; }
    }

    /** Cuts the chunk at its line ends and keeps what is left for the next one. */
    method Feed(text: string) returns (frames: seq<Frame>)
      requires Valid()
      modifies this
      ensures Valid() && View() == Run(old(View()), text).0 && frames == Run(old(View()), text).1
    {
      RunValid(View(), text);
      frames := [];
      if text == "" { return; }
      var t := text;
      if afterCr {
        if t[0] == '\n' {
          SkippedLf(View(), t);
          t := t[1..];
        } else {
          SkippedCr(View(), t);
        }
        afterCr := false;
      }
      assert Run(old(View()), text) == Run(View(), t);
      frames := Scan(t);
    }

    method Scan(t: string) returns (frames: seq<Frame>)
      requires !afterCr
      modifies this
      ensures View() == Run(old(View()), t).0 && frames == Run(old(View()), t).1
    {
      hide Run, Dispatch, EndAt, AfterEnd;
      frames := [];
      var rest := t;
      var k := EndAt(rest);
      while k < |rest|
        invariant k == EndAt(rest) && (afterCr ==> rest == "")
        invariant Run(old(View()), t).0 == Run(View(), rest).0
        invariant Run(old(View()), t).1 == frames + Run(View(), rest).1
        decreases |rest|
      {
        var next := AfterEnd(rest, k);
        ghost var before := View();
        RunNext(before, rest, k, next);
        ConcatOneMore(parts, rest[..k]);
        parts := parts + [rest[..k]];
        var line := Concat(parts);
        parts := [];
        afterCr := rest[k..next] == "\r" && next == |rest|;
        DispatchAfter(before, line, "", afterCr);
        var more := Line(line);
        frames := frames + more;
        rest := rest[next..];
        k := EndAt(rest);
      }
      RunEmpty(View());
      if rest != "" {
        assert rest[..k] == rest;
        RunPlain(View(), rest);
        ConcatOneMore(parts, rest);
        parts := parts + [rest];
      }
    }

    /** Turns down a stream that ends inside a data line or before the blank line of its data. */
    method Finish() returns (ok: bool)
      requires Valid()
      ensures ok <==> |Run(View(), "\n\n").1| == 0
    {
      UnfinishedExactlyWhenAFrameIsOpen(View());
      var pending := Concat(parts);
      ok := !(data != [] || pending == "data" || "data:" <= pending);
    }
  }

  // -------------------------------------------------------------- the whole stream

  /** A chunk of bytes: how many, and the text the decoder makes of it. */
  datatype Chunk = Chunk(size: nat, text: string)

  datatype Ending = Complete | OverBudget | UnfinishedData

  function Texts(chunks: seq<Chunk>): seq<string> {
    if chunks == [] then [] else [chunks[0].text] + Texts(chunks[1..])
  }

  function Size(chunks: seq<Chunk>): nat {
    if chunks == [] then 0 else chunks[0].size + Size(chunks[1..])
  }

  lemma {:induction false} OneMoreChunk(chunks: seq<Chunk>, c: Chunk)
    ensures Size(chunks + [c]) == Size(chunks) + c.size && Texts(chunks + [c]) == Texts(chunks) + [c.text]
  {
    if chunks != [] {
      assert (chunks + [c])[1..] == chunks[1..] + [c];
      OneMoreChunk(chunks[1..], c);
    }
  }

  lemma {:induction false} SizeGrows(chunks: seq<Chunk>, i: nat, j: nat)
    requires i <= j <= |chunks|
    ensures Size(chunks[..i]) <= Size(chunks[..j])
  {
    if i < j {
      assert chunks[..j] == chunks[..j - 1] + [chunks[j - 1]];
      OneMoreChunk(chunks[..j - 1], chunks[j - 1]);
      SizeGrows(chunks, i, j - 1);
    }
  }

  /** Decodes a stream under a byte budget; `tail` is what the decoder still holds at the end.
      Within the budget the frames are those of the whole text, and the end is accepted unless
      a frame is still open; beyond it, the frames of the chunks that fit. */
  method Decode(chunks: seq<Chunk>, tail: string, maxBytes: nat) returns (frames: seq<Frame>, ending: Ending, ghost fit: nat)
    ensures fit <= |chunks| && Size(chunks[..fit]) <= maxBytes && (fit < |chunks| ==> Size(chunks[..fit + 1]) > maxBytes)
    ensures ending == OverBudget <==> Size(chunks) > maxBytes
    ensures ending == OverBudget ==> frames == Run(INITIAL, Concat(Texts(chunks[..fit]))).1
    ensures ending != OverBudget ==>
              var run := Run(INITIAL, Concat(Texts(chunks)) + tail);
              frames == run.1 && (ending == Complete <==> |Run(run.0, "\n\n").1| == 0)
  {
    hide Run;
    var framer := new Framer();
    var total, i := 0, 0;
    frames, fit := [], 0;
    RunEmpty(INITIAL);
    while i < |chunks|
      invariant i <= |chunks| && fit == i && total == Size(chunks[..i]) <= maxBytes
      invariant framer.Valid() && fresh(framer)
      invariant framer.View() == Run(INITIAL, Concat(Texts(chunks[..i]))).0
      invariant frames == Run(INITIAL, Concat(Texts(chunks[..i]))).1
    {
      assert chunks[..i + 1] == chunks[..i] + [chunks[i]];
      OneMoreChunk(chunks[..i], chunks[i]);
      ConcatOneMore(Texts(chunks[..i]), chunks[i].text);
      total := total + chunks[i].size;
      if total > maxBytes {
        SizeGrows(chunks, i + 1, |chunks|);
        assert chunks[..|chunks|] == chunks;
        return frames, OverBudget, i;
      }
      RunConcat(INITIAL, Concat(Texts(chunks[..i])), chunks[i].text);
      var more := framer.Feed(chunks[i].text);
      frames, i, fit := frames + more, i + 1, i + 1;
    }
    assert chunks[..i] == chunks;
    RunConcat(INITIAL, Concat(Texts(chunks)), tail);
    var more := framer.Feed(tail);
    frames := frames + more;
    var ok := framer.Finish();
    ending := if ok then Complete else UnfinishedData;
  }

  // --------------------------------------------------------------- printing frames

  predicate Printable(f: Frame) {
    && '\r' !in f.data
    && f.event != "" && NoLineEnd(f.event)
    && NoLineEnd(f.lastEventId) && '\0' !in f.lastEventId
  }

  function Field(name: string, value: string): string { name + ": " + value }

  function DataFields(lines: seq<string>, end: string): string {
    if lines == [] then "" else Field("data", lines[0]) + end + DataFields(lines[1..], end)
  }

  function Printed(f: Frame, end: string): string {
    Field("event", f.event) + end + (Field("id", f.lastEventId) + end + (DataFields(SplitLines(f.data), end) + ("" + end)))
  }

  function PrintedAll(frames: seq<Frame>, end: string): string {
    if frames == [] then "" else Printed(frames[0], end) + PrintedAll(frames[1..], end)
  }

  lemma FieldRead(name: string, value: string)
    requires ':' !in name
    ensures FieldName(Field(name, value)) == name && FieldValue(Field(name, value)) == value
  {
    var line := Field(name, value);
    assert line[|name|] == ':' && line[..|name|] == name;
    assert forall i :: 0 <= i < |name| ==> line[i] == name[i] && name[i] in name;
    assert ColonAt(line) == |name|;
    assert line[|name| + 1..] == " " + value && (" " + value)[1..] == value;
  }

  lemma DispatchField(s: State, name: string, value: string)
    requires name in {"event", "id", "data"} && (name == "id" ==> '\0' !in value)
    ensures Dispatch(s, Field(name, value)) ==
            ((match name
              case "event" => s.(event := value)
              case "id" => s.(lastEventId := value)
              case _ => s.(data := s.data + [value])), [])
  {
    FieldRead(name, value);
    assert Field(name, value)[0] == name[0] && name[0] in name;
  }

  /** One printed field, read at the start of a line. */
  lemma RunField(s: State, name: string, value: string, end: string)
    requires s.pending == "" && name in {"event", "id", "data"} && (name == "id" ==> '\0' !in value)
    requires NoLineEnd(value) && end in {"\r\n", "\n", "\r"}
    ensures Run(s, Field(name, value) + end) == (Dispatch(s, Field(name, value)).0.(pending := "", afterCr := end == "\r"), [])
    ensures Dispatch(s, Field(name, value)).0 ==
            (match name
             case "event" => s.(event := value)
             case "id" => s.(lastEventId := value)
             case _ => s.(data := s.data + [value]))
  {
    hide Run, Dispatch;
    var line := Field(name, value);
    DispatchField(s, name, value);
    assert NoLineEnd(line) by { assert line == name + ": " + value; }
    assert "" + line == line && line[0] == name[0] && name[0] in name;
    RunLine(s, line, end);
  }

  lemma {:induction false} RunDataFields(s: State, lines: seq<string>, end: string)
    requires s.pending == "" && lines != [] && end in {"\r\n", "\n", "\r"}
    requires forall line <- lines :: NoLineEnd(line)
    ensures Run(s, DataFields(lines, end)) == (s.(data := s.data + lines, afterCr := end == "\r"), [])
    decreases |lines|
  {
    hide Run;
    var first := Field("data", lines[0]) + end;
    RunField(s, "data", lines[0], end);
    RunConcat(s, first, DataFields(lines[1..], end));
    var s' := Run(s, first).0;
    assert s'.data + lines[1..] == s.data + lines;
    if |lines| > 1 {
      RunDataFields(s', lines[1..], end);
    } else {
      assert lines[1..] == [] && s'.data == s.data + lines;
      RunEmpty(s');
    }
    assert Run(s, DataFields(lines, end)).1 == [];
  }

  /** A framer between two frames. */
  predicate AtRest(s: State, end: string) {
    s.pending == "" && s.data == [] && s.event == "" && (s.afterCr ==> end == "\r")
  }

  lemma RunPrinted(s: State, f: Frame, end: string)
    requires AtRest(s, end) && Printable(f) && end in {"\r\n", "\n", "\r"}
    ensures Run(s, Printed(f, end)) == (State("", [], "", f.lastEventId, end == "\r"), [f])
  {
    hide Run;
    var a, b, c := Field("event", f.event) + end, Field("id", f.lastEventId) + end, DataFields(SplitLines(f.data), end);
    RunField(s, "event", f.event, end);
    RunConcat(s, a, b + (c + ("" + end)));
    var s1 := Run(s, a).0;
    RunField(s1, "id", f.lastEventId, end);
    RunConcat(s1, b, c + ("" + end));
    var s2 := Run(s1, b).0;
    SplitLinesEndNowhere(f.data);
    RunDataFields(s2, SplitLines(f.data), end);
    RunConcat(s2, c, "" + end);
    var s3 := Run(s2, c).0;
    assert s3.data == SplitLines(f.data);
    RunLine(s3, "", end);
    assert "" + "" == "";
    assert Run(s, Printed(f, end)).1 == [f];
  }

  lemma {:induction false} RunPrintedAll(s: State, frames: seq<Frame>, end: string)
    requires AtRest(s, end) && end in {"\r\n", "\n", "\r"} && forall f <- frames :: Printable(f)
    ensures Run(s, PrintedAll(frames, end)).1 == frames && AtRest(Run(s, PrintedAll(frames, end)).0, end)
    decreases |frames|
  {
    hide Run;
    if frames == [] {
      RunEmpty(s);
    } else {
      RunPrinted(s, frames[0], end);
      RunConcat(s, Printed(frames[0], end), PrintedAll(frames[1..], end));
      RunPrintedAll(Run(s, Printed(frames[0], end)).0, frames[1..], end);
      assert [frames[0]] + frames[1..] == frames;
    }
  }

  /** Printed frames, cut anywhere and fed piece by piece, come back as they were, and the
      end of the stream is then accepted. */
  lemma RoundTrip(frames: seq<Frame>, end: string, chunks: seq<string>)
    requires forall f <- frames :: Printable(f)
    requires end in {"\r\n", "\n", "\r"} && Concat(chunks) == PrintedAll(frames, end)
    ensures RunChunks(INITIAL, chunks).1 == frames && !Unfinished(RunChunks(INITIAL, chunks).0)
  {
    ChunksDoNotMatter(INITIAL, chunks);
    RunPrintedAll(INITIAL, frames, end);
  }
}
