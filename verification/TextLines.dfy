/** Texts as sequences of lines. */
module TextLines {

  predicate LineEnd(c: char) { c == '\r' || c == '\n' }

  predicate NoLineEnd(s: string) { forall c <- s :: !LineEnd(c) }

  function Join(lines: seq<string>): string {
    if lines == [] then ""
    else if |lines| == 1 then lines[0]
    else lines[0] + "\n" + Join(lines[1..])
  }

  /** The lines of a text, cut at every line feed. */
  function SplitLines(text: string): (lines: seq<string>)
    ensures lines != [] && Join(lines) == text
    decreases |text|
  {
    if text == "" then [""]
    else
      var rest := SplitLines(text[1..]);
      if text[0] == '\n' then
        assert ([""] + rest)[1..] == rest && Join([""] + rest) == "\n" + Join(rest);
        [""] + rest
      else
        var lines := [[text[0]] + rest[0]] + rest[1..];
        assert lines[1..] == rest[1..];
        assert Join(lines) == [text[0]] + Join(rest);
        assert [text[0]] + text[1..] == text;
        lines
  }

  lemma {:induction false} SplitLinesEndNowhere(text: string)
    requires '\r' !in text
    ensures forall line <- SplitLines(text) :: NoLineEnd(line)
    decreases |text|
  {
    if text != "" {
      assert text[0] in text && forall c <- text[1..] :: c in text;
      SplitLinesEndNowhere(text[1..]);
      var rest := SplitLines(text[1..]);
      assert rest[0] in rest && forall line <- rest[1..] :: line in rest;
    }
  }

  lemma {:induction false} SplitPlain(line: string, rest: string)
    requires NoLineEnd(line)
    ensures SplitLines(line + rest) == [line + SplitLines(rest)[0]] + SplitLines(rest)[1..]
    decreases |line|
  {
    if line == "" {
      assert line + rest == rest && "" + SplitLines(rest)[0] == SplitLines(rest)[0];
    } else {
      assert line[0] in line && (line + rest)[1..] == line[1..] + rest;
      SplitPlain(line[1..], rest);
      assert [line[0]] + (line[1..] + SplitLines(rest)[0]) == line + SplitLines(rest)[0];
    }
  }

  lemma JoinMore(line: string, lines: seq<string>)
    requires lines != []
    ensures Join([line] + lines) == line + ("\n" + Join(lines))
  {
    assert ([line] + lines)[1..] == lines;
  }

  lemma SplitFeed(rest: string)
    ensures SplitLines("\n" + rest) == [""] + SplitLines(rest)
  {
    assert ("\n" + rest)[1..] == rest;
  }

  /** Cutting undoes joining. */
  lemma {:induction false} SplitJoin(lines: seq<string>)
    requires lines != [] && forall line <- lines :: NoLineEnd(line)
    ensures SplitLines(Join(lines)) == lines
  {
    hide SplitLines, NoLineEnd;
    var first, rest := lines[0], lines[1..];
    assert first in lines && lines == [first] + rest && first + "" == first;
    if rest == [] {
      SplitPlain(first, "");
      assert SplitLines("") == [""] by { SplitEmpty(); }
    } else {
      SplitJoin(rest);
      SplitFeed(Join(rest));
      SplitPlain(first, "\n" + Join(rest));
      JoinMore(first, rest);
    }
  }

  lemma SplitEmpty()
    ensures SplitLines("") == [""]
  {
  }

  lemma {:induction false} JoinClosed(lines: seq<string>)
    requires lines != []
    ensures Join(lines + [""]) == Join(lines) + "\n"
  {
    assert (lines + [""])[1..] == lines[1..] + [""];
    if |lines| > 1 { JoinClosed(lines[1..]); } else { assert lines[1..] + [""] == [""]; }
  }
}
