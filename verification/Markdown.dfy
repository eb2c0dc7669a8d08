/** The conservative Markdown repair: blocks are set apart by blank lines, an open code fence
    is closed. The repairing loop is proved against a rule about neighbouring lines. */
module Markdown {
  import opened Basics
  import opened TextLines

  // ----------------------------------------------------------------- classification

  /** White space as `str.lstrip` knows it. */
  predicate Space(c: char) {
    || '\t' <= c <= '\r' || '\U{1C}' <= c <= ' ' || c in {'\U{85}', '\U{A0}', '\U{1680}'}
    || '\U{2000}' <= c <= '\U{200A}' || c in {'\U{2028}', '\U{2029}', '\U{202F}', '\U{205F}', '\U{3000}'}
  }

  function Stripped(line: string): string {
    if line != "" && Space(line[0]) then Stripped(line[1..]) else line
  }

  function RunLength(s: string, c: char): nat {
    if s != "" && s[0] == c then 1 + RunLength(s[1..], c) else 0
  }

  function Repeat(c: char, n: nat): string { seq(n, _ => c) }

  /** A code fence: its character and how many of them. */
  datatype Fence = Fence(mark: char, length: nat)

  function FenceOf(stripped: string): (f: Option<Fence>)
    ensures f.Some? ==> f.value.mark in {'`', '~'} && f.value.length >= 3
  {
    if RunLength(stripped, '`') >= 3 then Some(Fence('`', RunLength(stripped, '`')))
    else if RunLength(stripped, '~') >= 3 then Some(Fence('~', RunLength(stripped, '~')))
    else None
  }

  predicate Closes(candidate: Fence, open: Fence) {
    candidate.mark == open.mark && candidate.length >= open.length
  }

  function Count(s: string, c: char): nat {
    if s == "" then 0 else (if s[0] == c then 1 else 0) + Count(s[1..], c)
  }

  predicate TableLine(s: string) {
    s != "" && s[0] == '|' && s[|s| - 1] == '|' && Count(s, '|') >= 2
  }

  /** Where the first ". " is, or the length of the text. */
  function DotSpaceAt(s: string): (k: nat)
    ensures k <= |s|
  {
    if s == "" || ". " <= s then 0 else 1 + DotSpaceAt(s[1..])
  }

  /** `digits` are the characters that count as decimal or other digits. */
  predicate ListLine(digits: set<char>, s: string) {
    || "- " <= s || "* " <= s || "+ " <= s
    || (0 < DotSpaceAt(s) < |s| && forall c <- s[..DotSpaceAt(s)] :: c in digits)
  }

  datatype Block = Blank | FenceLine | Code | Table | List | Paragraph

  function BlockOf(digits: set<char>, line: string, inFence: bool): Block {
    if line == "" then Blank
    else if FenceOf(Stripped(line)).Some? then FenceLine
    else if inFence then Code
    else if TableLine(Stripped(line)) then Table
    else if ListLine(digits, Stripped(line)) then List
    else Paragraph
  }

  // ------------------------------------------------------------------- fence scan

  /** The open fence after a line. */
  function After(open: Option<Fence>, line: string): Option<Fence> {
    match FenceOf(Stripped(line))
    case None => open
    case Some(f) => if open.None? then Some(f) else if Closes(f, open.value) then None else open
  }

  function Scan(open: Option<Fence>, lines: seq<string>): Option<Fence>
    decreases |lines|
  {
    if lines == [] then open else Scan(After(open, lines[0]), lines[1..])
  }

  lemma {:induction false} ScanConcat(open: Option<Fence>, a: seq<string>, b: seq<string>)
    ensures Scan(open, a + b) == Scan(Scan(open, a), b)
    decreases |a|
  {
    if a == [] {
      assert a + b == b;
    } else {
      assert (a + b)[1..] == a[1..] + b;
      ScanConcat(After(open, a[0]), a[1..], b);
    }
  }

  lemma {:induction false} RunLengthRepeat(c: char, n: nat)
    ensures RunLength(Repeat(c, n), c) == n
  {
    if n > 0 {
      assert Repeat(c, n)[1..] == Repeat(c, n - 1);
      RunLengthRepeat(c, n - 1);
    }
  }

  /** The marker line that closes a fence is itself a fence of that mark and length. */
  lemma MarkerIsFence(f: Fence)
    requires f.mark in {'`', '~'} && f.length >= 3
    ensures FenceOf(Stripped(Repeat(f.mark, f.length))) == Some(f)
  {
    var line := Repeat(f.mark, f.length);
    RunLengthRepeat(f.mark, f.length);
    assert line[0] == f.mark && Stripped(line) == line;
    assert f.mark != '`' ==> RunLength(line, '`') == 0;
  }

  lemma {:induction false} ScanOpensFences(open: Option<Fence>, lines: seq<string>)
    requires open.Some? ==> open.value.mark in {'`', '~'} && open.value.length >= 3
    ensures var f := Scan(open, lines); f.Some? ==> f.value.mark in {'`', '~'} && f.value.length >= 3
    decreases |lines|
  {
    if lines != [] { ScanOpensFences(After(open, lines[0]), lines[1..]); }
  }

  // -------------------------------------------------------------- where gaps belong

  /** Two neighbouring lines that must not touch. */
  predicate Clash(a: Block, b: Block) {
    || (a == Paragraph && b in {Table, List, FenceLine})
    || (a in {Table, List, FenceLine} && b == Paragraph)
  }

  datatype Mark = Kept(line: string) | Inserted

  function Shown(m: Mark): string { if m.Kept? then m.line else "" }

  function Text(marks: seq<Mark>): seq<string> {
    if marks == [] then [] else [Shown(marks[0])] + Text(marks[1..])
  }

  function Originals(marks: seq<Mark>): seq<string> {
    if marks == [] then [] else (if marks[0].Kept? then [marks[0].line] else []) + Originals(marks[1..])
  }

  /** The rule: outside fences a blank line goes between two lines that clash, and nowhere else. */
  function Gapped(digits: set<char>, open: Option<Fence>, before: Block, lines: seq<string>): seq<Mark>
    decreases |lines|
  {
    if lines == [] then []
    else
      var block := BlockOf(digits, lines[0], open.Some?);
      (if open.None? && Clash(before, block) then [Inserted] else [])
      + [Kept(lines[0])]
      + Gapped(digits, After(open, lines[0]), block, lines[1..])
  }

  /** No two lines outside a fence clash. */
  predicate Separated(digits: set<char>, open: Option<Fence>, before: Block, lines: seq<string>)
    decreases |lines|
  {
    lines != [] ==>
      var block := BlockOf(digits, lines[0], open.Some?);
      (open.None? ==> !Clash(before, block)) && Separated(digits, After(open, lines[0]), block, lines[1..])
  }

  lemma {:induction false} TextConcat(a: seq<Mark>, b: seq<Mark>)
    ensures Text(a + b) == Text(a) + Text(b)
  {
    if a == [] {
      assert a + b == b;
    } else {
      assert (a + b)[1..] == a[1..] + b;
      TextConcat(a[1..], b);
    }
  }

  /** Dropping the inserted blank lines gives the lines back. */
  lemma {:induction false} OriginalsKept(digits: set<char>, open: Option<Fence>, before: Block, lines: seq<string>)
    ensures Originals(Gapped(digits, open, before, lines)) == lines
    decreases |lines|
  {
    if lines != [] {
      var block := BlockOf(digits, lines[0], open.Some?);
      var rest := Gapped(digits, After(open, lines[0]), block, lines[1..]);
      var marks := Gapped(digits, open, before, lines);
      OriginalsKept(digits, After(open, lines[0]), block, lines[1..]);
      if marks[0].Inserted? { assert marks[1..] == [Kept(lines[0])] + rest; }
      assert ([Kept(lines[0])] + rest)[1..] == rest;
    }
  }

  /** Text of the lines with their gaps, one line at a time. */
  lemma GappedText(digits: set<char>, open: Option<Fence>, before: Block, lines: seq<string>)
    requires lines != []
    ensures var block := BlockOf(digits, lines[0], open.Some?);
            Text(Gapped(digits, open, before, lines)) ==
            (if open.None? && Clash(before, block) then [""] else []) + [lines[0]]
            + Text(Gapped(digits, After(open, lines[0]), block, lines[1..]))
  {
    var block := BlockOf(digits, lines[0], open.Some?);
    var gap := if open.None? && Clash(before, block) then [Inserted] else [];
    TextConcat(gap + [Kept(lines[0])], Gapped(digits, After(open, lines[0]), block, lines[1..]));
    TextConcat(gap, [Kept(lines[0])]);
    assert Text([Kept(lines[0])]) == [lines[0]] by { assert [Kept(lines[0])][1..] == []; }
    if gap != [] { assert [Inserted][1..] == []; }
  }

  /** After the gaps are in, no lines clash, and the fence scan ends as it did without them. */
  lemma {:induction false} GappedSeparates(digits: set<char>, open: Option<Fence>, before: Block, lines: seq<string>)
    ensures Separated(digits, open, before, Text(Gapped(digits, open, before, lines)))
    ensures Scan(open, Text(Gapped(digits, open, before, lines))) == Scan(open, lines)
    decreases |lines|
  {
    if lines != [] {
      var block := BlockOf(digits, lines[0], open.Some?);
      GappedSeparates(digits, After(open, lines[0]), block, lines[1..]);
      GappedText(digits, open, before, lines);
      var out := Text(Gapped(digits, open, before, lines));
      var rest := Text(Gapped(digits, After(open, lines[0]), block, lines[1..]));
      if open.None? && Clash(before, block) {
        assert out[1..] == [lines[0]] + rest && out[1..][1..] == rest;
        assert Separated(digits, None, Blank, out[1..]);
      } else {
        assert out[1..] == rest;
      }
    }
  }

  /** Lines that already keep apart are left as they are. */
  lemma {:induction false} SeparatedStays(digits: set<char>, open: Option<Fence>, before: Block, lines: seq<string>)
    requires Separated(digits, open, before, lines)
    ensures Text(Gapped(digits, open, before, lines)) == lines
    decreases |lines|
  {
    if lines != [] {
      GappedText(digits, open, before, lines);
      SeparatedStays(digits, After(open, lines[0]), BlockOf(digits, lines[0], open.Some?), lines[1..]);
    }
  }

  /** No blank line is inserted inside a fence. */
  lemma {:induction false} NoGapInsideFence(digits: set<char>, open: Option<Fence>, before: Block, lines: seq<string>, i: nat)
    requires i < |Gapped(digits, open, before, lines)| && Gapped(digits, open, before, lines)[i].Inserted?
    ensures Scan(open, Text(Gapped(digits, open, before, lines)[..i])).None?
    decreases |lines|
  {
    var marks := Gapped(digits, open, before, lines);
    var block := BlockOf(digits, lines[0], open.Some?);
    var rest := Gapped(digits, After(open, lines[0]), block, lines[1..]);
    var head := marks[..|marks| - |rest|];
    assert marks == head + rest;
    if i >= |head| {
      NoGapInsideFence(digits, After(open, lines[0]), block, lines[1..], i - |head|);
      assert marks[..i] == head + rest[..i - |head|];
      TextConcat(head, rest[..i - |head|]);
      ScanConcat(open, Text(head), Text(rest[..i - |head|]));
      GappedText(digits, open, before, [lines[0]]);
      assert Gapped(digits, open, before, [lines[0]]) == head;
      ScanConcat(open, Text(head)[..|Text(head)| - 1], [lines[0]]);
    }
  }

  // ------------------------------------------------------------------- the repair

  function FromCrLf(text: string): string {
    if text == "" then ""
    else if "\r\n" <= text then "\n" + FromCrLf(text[2..])
    else [text[0]] + FromCrLf(text[1..])
  }

  function FromCr(text: string): string {
    if text == "" then "" else (if text[0] == '\r' then "\n" else [text[0]]) + FromCr(text[1..])
  }

  function Normalized(text: string): string { FromCr(FromCrLf(text)) }

  function Trimmed(lines: seq<string>): seq<string> {
    if lines != [] && lines[0] == "" then Trimmed(lines[1..]) else TrimmedEnd(lines)
  }

  function TrimmedEnd(lines: seq<string>): seq<string> {
    if lines != [] && lines[|lines| - 1] == "" then TrimmedEnd(lines[..|lines| - 1]) else lines
  }

  /** The lines with a closing marker if a fence is still open. */
  function Closed(lines: seq<string>): seq<string> {
    match Scan(None, lines)
    case None => lines
    case Some(f) => lines + [Repeat(f.mark, f.length)]
  }

  function Repaired(digits: set<char>, lines: seq<string>): seq<string> {
    Closed(Text(Gapped(digits, None, Blank, lines)))
  }

  function Repair(digits: set<char>, text: string): string {
    var lines := Trimmed(SplitLines(Normalized(text)));
    if lines == [] then "" else Join(Repaired(digits, lines)) + "\n"
  }

  /** The fence scan of repaired lines ends closed. */
  lemma RepairedIsClosed(digits: set<char>, lines: seq<string>)
    ensures Scan(None, Repaired(digits, lines)).None?
  {
    var spaced := Text(Gapped(digits, None, Blank, lines));
    ScanOpensFences(None, spaced);
    match Scan(None, spaced)
    case None =>
    case Some(f) =>
      MarkerIsFence(f);
      ScanConcat(None, spaced, [Repeat(f.mark, f.length)]);
      assert [Repeat(f.mark, f.length)][1..] == [];
  }

  /** Behind an open fence anything may follow. */
  lemma {:induction false} SeparatedAppend(digits: set<char>, open: Option<Fence>, before: Block, lines: seq<string>, line: string)
    requires Separated(digits, open, before, lines) && Scan(open, lines).Some?
    ensures Separated(digits, open, before, lines + [line])
    decreases |lines|
  {
    if lines == [] {
      assert ([] + [line])[1..] == [];
    } else {
      assert (lines + [line])[1..] == lines[1..] + [line];
      SeparatedAppend(digits, After(open, lines[0]), BlockOf(digits, lines[0], open.Some?), lines[1..], line);
    }
  }

  /** Repaired lines need no more repair. */
  lemma RepairedStays(digits: set<char>, lines: seq<string>)
    ensures Repaired(digits, Repaired(digits, lines)) == Repaired(digits, lines)
  {
    var spaced := Text(Gapped(digits, None, Blank, lines));
    var done := Repaired(digits, lines);
    GappedSeparates(digits, None, Blank, lines);
    match Scan(None, spaced) {
      case None =>
      case Some(f) => SeparatedAppend(digits, None, Blank, spaced, Repeat(f.mark, f.length));
    }
    SeparatedStays(digits, None, Blank, done);
    RepairedIsClosed(digits, lines);
  }

  /** Neither end of the lines is blank. */
  predicate Solid(lines: seq<string>) { lines != [] ==> lines[0] != "" && lines[|lines| - 1] != "" }

  lemma {:induction false} TrimmedIsSolid(lines: seq<string>)
    ensures Solid(Trimmed(lines)) && forall line <- Trimmed(lines) :: line in lines
  {
    if lines != [] && lines[0] == "" { TrimmedIsSolid(lines[1..]); } else { TrimmedEndIsSolid(lines); }
  }

  lemma {:induction false} TrimmedEndIsSolid(lines: seq<string>)
    requires lines != [] ==> lines[0] != ""
    ensures Solid(TrimmedEnd(lines)) && forall line <- TrimmedEnd(lines) :: line in lines
  {
    if lines != [] && lines[|lines| - 1] == "" { TrimmedEndIsSolid(lines[..|lines| - 1]); }
  }

  lemma TrimmedSolid(lines: seq<string>)
    requires Solid(lines) && lines != []
    ensures Trimmed(lines + [""]) == lines
  {
    var more := lines + [""];
    assert more[..|lines|] == lines && more[0] == lines[0] && more[|more| - 1] == "";
    assert Trimmed(more) == TrimmedEnd(more) == TrimmedEnd(lines);
  }

  lemma {:induction false} GappedEnds(digits: set<char>, open: Option<Fence>, before: Block, lines: seq<string>)
    requires lines != []
    ensures var out := Text(Gapped(digits, open, before, lines));
            && out != [] && out[|out| - 1] == lines[|lines| - 1]
            && (before == Blank ==> out[0] == lines[0])
            && (forall line <- out :: line == "" || line in lines)
    decreases |lines|
  {
    GappedText(digits, open, before, lines);
    if |lines| > 1 {
      GappedEnds(digits, After(open, lines[0]), BlockOf(digits, lines[0], open.Some?), lines[1..]);
    }
  }

  lemma RepairedIsSolid(digits: set<char>, lines: seq<string>)
    requires lines != [] && Solid(lines) && forall line <- lines :: NoLineEnd(line)
    ensures Repaired(digits, lines) != [] && Solid(Repaired(digits, lines))
    ensures forall line <- Repaired(digits, lines) :: NoLineEnd(line)
  {
    GappedEnds(digits, None, Blank, lines);
    ScanOpensFences(None, Text(Gapped(digits, None, Blank, lines)));
  }

  lemma {:induction false} NormalizedHasNoCr(text: string)
    ensures '\r' !in FromCr(text)
  {
    if text != "" { NormalizedHasNoCr(text[1..]); }
  }

  lemma {:induction false} NormalizedStays(text: string)
    requires '\r' !in text
    ensures FromCrLf(text) == text && FromCr(text) == text
  {
    if text != "" {
      assert text[0] in text && text == [text[0]] + text[1..];
      NormalizedStays(text[1..]);
    }
  }

  lemma {:induction false} JoinHasNoCr(lines: seq<string>)
    requires forall line <- lines :: NoLineEnd(line)
    ensures '\r' !in Join(lines)
  {
    if lines != [] {
      assert lines[0] in lines;
      if |lines| > 1 { JoinHasNoCr(lines[1..]); }
    }
  }

  /** Repairing twice is repairing once, for every text. */
  lemma RepairIsIdempotent(digits: set<char>, text: string)
    ensures Repair(digits, Repair(digits, text)) == Repair(digits, text)
  {
    hide Scan, Gapped, Separated, Repaired, SplitLines, Trimmed, TrimmedEnd, Join, FromCr, FromCrLf;
    NormalizedHasNoCr(FromCrLf(text));
    SplitLinesEndNowhere(Normalized(text));
    TrimmedIsSolid(SplitLines(Normalized(text)));
    var lines := Trimmed(SplitLines(Normalized(text)));
    if lines == [] {
      EmptyStays();
    } else {
      var done := Repaired(digits, lines);
      RepairedIsSolid(digits, lines);
      JoinClosed(done);
      JoinHasNoCr(done + [""]);
      NormalizedStays(Repair(digits, text));
      SplitJoin(done + [""]);
      TrimmedSolid(done);
      RepairedStays(digits, lines);
    }
  }

  lemma EmptyStays()
    ensures Trimmed(SplitLines(Normalized(""))) == []
  {
    assert SplitLines("") == [""];
    assert [""][1..] == [];
  }

  /** What the repair adds can be taken away again: without the inserted blank lines and the
      closing marker, the repaired lines are the lines of the normalised, trimmed text. */
  lemma RepairOnlyAdds(digits: set<char>, lines: seq<string>)
    ensures var marks := Gapped(digits, None, Blank, lines);
            && Originals(marks) == lines
            && Text(marks) <= Repaired(digits, lines)
            && |Repaired(digits, lines)| == |marks| + (if Scan(None, lines).Some? then 1 else 0)
            && (forall i :: 0 <= i < |marks| && marks[i].Inserted? ==> Scan(None, Text(marks[..i])).None?)
  {
    var marks := Gapped(digits, None, Blank, lines);
    OriginalsKept(digits, None, Blank, lines);
    GappedSeparates(digits, None, Blank, lines);
    TextLength(marks);
    forall i | 0 <= i < |marks| && marks[i].Inserted? ensures Scan(None, Text(marks[..i])).None? {
      NoGapInsideFence(digits, None, Blank, lines, i);
    }
  }

  lemma {:induction false} TextLength(marks: seq<Mark>)
    ensures |Text(marks)| == |marks|
  {
    if marks != [] { TextLength(marks[1..]); }
  }

  // ------------------------------------------------------------------- the loops

  method FenceMarker(stripped: string) returns (f: Option<Fence>)
    ensures f == FenceOf(stripped)
  {
    f := None;
    var marks := ['`', '~'];
    for m := 0 to 2
      invariant forall k :: 0 <= k < m ==> RunLength(stripped, marks[k]) < 3
    {
      var length := 0;
      while length < |stripped| && stripped[length] == marks[m]
        invariant length <= |stripped| && RunLength(stripped, marks[m]) == length + RunLength(stripped[length..], marks[m])
      {
        assert stripped[length..][1..] == stripped[length + 1..];
        length := length + 1;
      }
      if length >= 3 { return Some(Fence(marks[m], length)); }
    }
    assert RunLength(stripped, marks[0]) < 3 && RunLength(stripped, marks[1]) < 3;
  }

  method StripTerminalEmptyLines(lines: seq<string>) returns (result: seq<string>)
    ensures result == Trimmed(lines)
  {
    var start, end := 0, |lines|;
    while start < end && lines[start] == ""
      invariant start <= end == |lines| && Trimmed(lines) == Trimmed(lines[start..])
    {
      assert lines[start..][1..] == lines[start + 1..];
      start := start + 1;
    }
    assert lines[start..end] == lines[start..];
    while end > start && lines[end - 1] == ""
      invariant start <= end <= |lines| && Trimmed(lines) == TrimmedEnd(lines[start..end])
    {
      assert lines[start..end][..end - start - 1] == lines[start..end - 1];
      end := end - 1;
    }
    result := lines[start..end];
  }

  function BlankBeforeBlock(result: seq<string>, previous: Block): seq<string> {
    if result == [] || result[|result| - 1] == "" || previous in {Blank, Table, List, FenceLine} then result
    else result + [""]
  }

  function BlankAfterBlock(result: seq<string>, previous: Block): seq<string> {
    if result != [] && result[|result| - 1] != "" && previous in {List, Table, FenceLine} then result + [""] else result
  }

  function BlankOnce(result: seq<string>): seq<string> {
    if result != [] && result[|result| - 1] != "" then result + [""] else result
  }

  /** Appends one line, with a blank line before it where its block asks for one. */
  method PlaceLine(digits: set<char>, result: seq<string>, open: Option<Fence>, previous: Block, line: string, ghost before: Block)
    returns (result': seq<string>, open': Option<Fence>, previous': Block)
    requires open.None? ==> previous == before && (before != Blank ==> result != [] && result[|result| - 1] != "")
    requires open.None? ==> before != Code
    ensures open' == After(open, line)
    ensures var block := BlockOf(digits, line, open.Some?);
            && result' == result + ((if open.None? && Clash(before, block) then [""] else []) + [line])
            && (open'.None? ==> previous' == block && block != Code)
  {
    hide FenceOf, Stripped, TableLine, ListLine;
    result', open', previous' := result, open, previous;
    var block := BlockOf(digits, line, open.Some?);
    var marker := FenceMarker(Stripped(line));
    BlockFacts(digits, line, open.Some?);
    if block == FenceLine {
      if open.None? {
        result' := BlankBeforeBlock(result, previous);
        open' := marker;
      } else if Closes(marker.value, open.value) {
        open' := None;
      }
    } else if open.None? {
      if block in {Table, List} { result' := BlankBeforeBlock(result, previous); }
      else if block == Paragraph { result' := BlankAfterBlock(result, previous); }
    }
    result' := result' + [line];
    if line == "" { previous' := Blank; }
    else if open'.None? || block == FenceLine { previous' := block; }
  }

  /** Looks at the line behind a table or a list; a paragraph there gets its blank line now. */
  method LookAhead(digits: set<char>, result: seq<string>, block: Block, rest: seq<string>)
    returns (result': seq<string>, before: Block)
    requires rest != [] && block != Code && (block != Blank ==> result != [] && result[|result| - 1] != "")
    ensures result' + Text(Gapped(digits, None, before, rest)) == result + Text(Gapped(digits, None, block, rest))
    ensures before in {block, Blank} && (before != Blank ==> result' != [] && result'[|result'| - 1] != "")
  {
    hide Gapped, BlockOf, After, Text;
    result', before := result, block;
    var next := BlockOf(digits, rest[0], false);
    if block in {Table, List} && next == Paragraph {
      GappedText(digits, None, block, rest);
      GappedText(digits, None, Blank, rest);
      result', before := BlankOnce(result), Blank;
    }
  }

  /** Places the first of the remaining lines, and the blank line behind it if one is due. */
  method Advance(digits: set<char>, result: seq<string>, open: Option<Fence>, previous: Block, rest: seq<string>, ghost before: Block)
    returns (result': seq<string>, open': Option<Fence>, previous': Block, ghost before': Block)
    requires rest != [] && (open.None? ==> previous == before && before != Code)
    requires open.None? && before != Blank ==> result != [] && result[|result| - 1] != ""
    ensures result' + Text(Gapped(digits, open', before', rest[1..])) == result + Text(Gapped(digits, open, before, rest))
    ensures open'.None? ==> previous' == before' && before' != Code
    ensures open'.None? && before' != Blank ==> result' != [] && result'[|result'| - 1] != ""
  {
    hide Gapped, BlockOf, After, Text, Clash;
    var block := BlockOf(digits, rest[0], open.Some?);
    BlockFacts(digits, rest[0], open.Some?);
    GappedText(digits, open, before, rest);
    result', open', previous' := PlaceLine(digits, result, open, previous, rest[0], before);
    before' := block;
    if |rest| > 1 && open'.None? {
      result', previous' := LookAhead(digits, result', block, rest[1..]);
      before' := previous';
    }
  }

  /** Inserts blank lines while looking one line ahead; `previous` is the block of the last
      line that matters. */
  method NormalizeBlockSpacing(digits: set<char>, lines: seq<string>) returns (result: seq<string>)
    ensures result == Text(Gapped(digits, None, Blank, lines))
  {
    hide Gapped, BlockOf, After, Text, Clash;
    result := [];
    var open: Option<Fence> := None;
    var previous := Blank;
    ghost var before := Blank;
    for i := 0 to |lines|
      invariant result + Text(Gapped(digits, open, before, lines[i..])) == Text(Gapped(digits, None, Blank, lines))
      invariant open.None? ==> previous == before && before != Code
      invariant open.None? && before != Blank ==> result != [] && result[|result| - 1] != ""
    {
      assert lines[i..][1..] == lines[i + 1..];
      result, open, previous, before := Advance(digits, result, open, previous, lines[i..], before);
    }
    NothingGapped(digits, open, before);
    assert lines[|lines|..] == [];
  }

  lemma NothingGapped(digits: set<char>, open: Option<Fence>, before: Block)
    ensures Text(Gapped(digits, open, before, [])) == []
  {
  }

  lemma BlockFacts(digits: set<char>, line: string, inFence: bool)
    ensures BlockOf(digits, line, inFence) == Blank <==> line == ""
    ensures BlockOf(digits, line, inFence) == FenceLine <==> line != "" && FenceOf(Stripped(line)).Some?
    ensures line == "" ==> FenceOf(Stripped(line)).None?
    ensures BlockOf(digits, line, inFence) == Code ==> inFence
    ensures inFence ==> BlockOf(digits, line, inFence) in {Blank, FenceLine, Code}
  {
  }

  method CloseUnclosedFence(lines: seq<string>) returns (result: seq<string>)
    ensures result == Closed(lines)
  {
    hide FenceOf;
    var open: Option<Fence> := None;
    for i := 0 to |lines|
      invariant Scan(None, lines) == Scan(open, lines[i..])
    {
      assert lines[i..][1..] == lines[i + 1..];
      var marker := FenceMarker(Stripped(lines[i]));
      if marker.Some? {
        if open.None? { open := marker; }
        else if Closes(marker.value, open.value) { open := None; }
      }
    }
    result := if open.Some? then lines + [Repeat(open.value.mark, open.value.length)] else lines;
  }

  method RepairMarkdown(digits: set<char>, text: Option<string>, enabled: bool) returns (result: string)
    ensures text.None? ==> result == ""
    ensures text.Some? && !enabled ==> result == text.value
    ensures text.Some? && enabled ==> result == Repair(digits, text.value)
  {
    if text.None? { return ""; }
    if !enabled { return text.value; }
    if text.value == "" {
      EmptyStays();
      return "";
    }
    var lines := StripTerminalEmptyLines(SplitLines(Normalized(text.value)));
    if lines == [] { return ""; }
    lines := NormalizeBlockSpacing(digits, lines);
    lines := CloseUnclosedFence(lines);
    result := Join(lines) + "\n";
  }
}
