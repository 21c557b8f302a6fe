/**
 What the lines of a response are and which of them are parsed, said about the text itself:
 lines and line ends alternate, and every line that shows anything is parsed, in order.
 */
module NdjsonLines {
  import opened Wrappers
  import opened Ndjson
  import PythonText

  // ------------------------------------------------------------------------ splitting

  /** The first line, its end, the second line, its end, and so on up to the last line. */
  function Interleaved(lines: seq<string>, ends: seq<string>): string
    requires |lines| == |ends| + 1
  {
    if ends == [] then lines[0] else lines[0] + ends[0] + Interleaved(lines[1..], ends[1..])
  }

  predicate EndsInReturn(line: string) {
    line != "" && line[|line| - 1] == '\r'
  }

  /** A line holds no newline, and a return before a newline belongs to the line's end. */
  ghost predicate IsSplit(s: string, lines: seq<string>, ends: seq<string>) {
    && |lines| == |ends| + 1 && s == Interleaved(lines, ends)
    && (forall i :: 0 <= i < |lines| ==> '\n' !in lines[i])
    && (forall i :: 0 <= i < |ends| ==> ends[i] == "\r\n" || (ends[i] == "\n" && !EndsInReturn(lines[i])))
  }

  lemma {:induction false} IsSplitCons(line: string, end: string, rest: string, lines: seq<string>, ends: seq<string>)
    requires IsSplit(rest, lines, ends) && '\n' !in line
    requires end == "\r\n" || (end == "\n" && !EndsInReturn(line))
    ensures IsSplit(line + end + rest, [line] + lines, [end] + ends)
  {
    assert ([line] + lines)[1..] == lines && ([end] + ends)[1..] == ends;
  }

  /** The first newline of a text closes a line that belongs to it with its end. */
  lemma {:induction false} CutAt(s: string, i: nat) returns (end: string)
    requires i < |s| && s[i] == '\n' && forall k :: 0 <= k < i ==> s[k] != '\n'
    ensures '\n' !in DropReturn(s[..i])
    ensures end == "\r\n" || (end == "\n" && !EndsInReturn(DropReturn(s[..i])))
    ensures s == DropReturn(s[..i]) + end + s[i + 1..]
  {
    if EndsInReturn(s[..i]) {
      end := "\r\n";
      assert s == s[..i - 1] + "\r\n" + s[i + 1..];
    } else {
      end := "\n";
      assert s == s[..i] + "\n" + s[i + 1..];
    }
  }

  lemma {:induction false} SplitExists(s: string) returns (ends: seq<string>)
    ensures IsSplit(s, Split(s), ends)
    decreases |s|
  {
    var i := FirstNewline(s);
    if i == |s| {
      ends := [];
    } else {
      var later := SplitExists(s[i + 1..]);
      var end := CutAt(s, i);
      SplitAt(s, i);
      ends := [end] + later;
      IsSplitCons(DropReturn(s[..i]), end, s[i + 1..], Split(s[i + 1..]), later);
    }
  }

  lemma {:induction false} LineBefore(line: string, end: string, rest: string)
    requires end == "\r\n" || (end == "\n" && !EndsInReturn(line))
    ensures var s, i := line + end + rest, |line| + |end| - 1;
            s[i] == '\n' && s[i + 1..] == rest && DropReturn(s[..i]) == line
  {
    var s, i := line + end + rest, |line| + |end| - 1;
    if end == "\n" {
      assert s[..i] == line;
    } else {
      assert s[..i] == line + "\r";
    }
  }

  lemma {:induction false} FirstLine(line: string, end: string, rest: string)
    requires '\n' !in line && (end == "\r\n" || (end == "\n" && !EndsInReturn(line)))
    ensures Split(line + end + rest) == [line] + Split(rest)
  {
    var s, i := line + end + rest, |line| + |end| - 1;
    LineBefore(line, end, rest);
    forall k | 0 <= k < i ensures s[k] != '\n' { if k < |line| { assert s[k] == line[k]; } }
    SplitAt(s, i);
  }

  lemma {:induction false} OnlyLine(line: string)
    requires '\n' !in line
    ensures Split(line) == [line]
  {
    forall k | 0 <= k < |line| ensures line[k] != '\n' { assert line[k] in line; }
  }

  lemma {:induction false} SplitUnique(s: string, lines: seq<string>, ends: seq<string>)
    requires IsSplit(s, lines, ends)
    ensures lines == Split(s)
    decreases |lines|
  {
    if ends == [] {
      assert '\n' !in lines[0];
      OnlyLine(s);
    } else {
      var rest := Interleaved(lines[1..], ends[1..]);
      forall i | 0 <= i < |lines[1..]| ensures '\n' !in lines[1..][i] { assert lines[1..][i] == lines[i + 1]; }
      SplitUnique(rest, lines[1..], ends[1..]);
      FirstLine(lines[0], ends[0], rest);
      assert lines == [lines[0]] + lines[1..];
    }
  }

  /** Every text is lines and line ends in exactly one way, and splitting finds it. */
  lemma {:induction false} SplitIff(s: string, lines: seq<string>)
    ensures lines == Split(s) <==> exists ends :: IsSplit(s, lines, ends)
  {
    var ends := SplitExists(s);
    if ends' :| IsSplit(s, lines, ends') { SplitUnique(s, lines, ends'); }
  }

  // ------------------------------------------------------------------- which are parsed

  /** The browser's blanks are Python's but for four controls and the next-line sign, and with the byte order mark. */
  lemma SpacesDiffer(c: char)
    ensures IsSpace(c) != PythonText.IsSpace(c)
            <==> '\U{001C}' <= c <= '\U{001F}' || c == '\U{0085}' || c == '\U{FEFF}'
    ensures IsSpace(c) ==> c as int in {9, 10, 11, 12, 13, 32, 160, 5760, 8232, 8233, 8239, 8287, 12288, 65279}
                           || 8192 <= c as int <= 8202
  {
  }

  predicate Visible(line: string) {
    exists i :: 0 <= i < |line| && !IsSpace(line[i])
  }

  /** `at` are the positions of the visible lines, in order. */
  ghost predicate VisibleAt(lines: seq<string>, at: seq<nat>) {
    && (forall k :: 0 <= k < |at| ==> at[k] < |lines| && Visible(lines[at[k]]))
    && (forall j, k :: 0 <= j < k < |at| ==> at[j] < at[k])
    && (forall i :: 0 <= i < |lines| && Visible(lines[i]) ==> i in at)
  }

  function Picked(lines: seq<string>, at: seq<nat>): seq<string>
    requires forall k :: 0 <= k < |at| ==> at[k] < |lines|
  {
    seq(|at|, k requires 0 <= k < |at| => lines[at[k]])
  }

  lemma VisibleIff(line: string)
    ensures Visible(line) <==> !Blank(line)
  {
  }

  lemma {:induction false} NonBlankMore(lines: seq<string>, line: string)
    ensures NonBlank(lines + [line]) == NonBlank(lines) + if Blank(line) then [] else [line]
  {
    NonBlankConcat(lines, [line]);
    assert [line][1..] == [];
  }

  lemma {:induction false} VisibleMore(lines: seq<string>, line: string, before: seq<nat>)
    requires VisibleAt(lines, before)
    ensures var at := if Visible(line) then before + [|lines|] else before;
            && VisibleAt(lines + [line], at)
            && Picked(lines + [line], at) == Picked(lines, before) + if Visible(line) then [line] else []
  {
    var all, at := lines + [line], if Visible(line) then before + [|lines|] else before;
    forall k | 0 <= k < |at| ensures at[k] < |all| && Visible(all[at[k]]) {
      if k < |before| { assert all[before[k]] == lines[before[k]]; }
    }
    forall i | 0 <= i < |all| && Visible(all[i]) ensures i in at {
      if i < |lines| {
        assert all[i] == lines[i] && i in before;
      } else {
        assert at[|before|] == i;
      }
    }
  }

  ghost predicate Keeps(kept: seq<string>, lines: seq<string>, at: seq<nat>) {
    VisibleAt(lines, at) && kept == Picked(lines, at)
  }

  lemma {:induction false} KeepsMore(lines: seq<string>, line: string, before: seq<nat>)
    requires Keeps(NonBlank(lines), lines, before)
    ensures Keeps(NonBlank(lines + [line]), lines + [line], if Visible(line) then before + [|lines|] else before)
  {
    NonBlankMore(lines, line);
    VisibleIff(line);
    VisibleMore(lines, line, before);
  }

  /** Exactly the visible lines are kept, in their order. */
  lemma {:induction false} NonBlankIs(lines: seq<string>) returns (at: seq<nat>)
    ensures Keeps(NonBlank(lines), lines, at)
  {
    if lines == [] {
      at := [];
    } else {
      var front, line := lines[..|lines| - 1], lines[|lines| - 1];
      assert front + [line] == lines;
      var before := NonBlankIs(front);
      KeepsMore(front, line, before);
      at := if Visible(line) then before + [|front|] else before;
    }
  }

  lemma {:induction false} ParsedEach<T(!new)>(lines: seq<string>, parse: string -> Option<T>)
    requires AllParse(lines, parse)
    ensures |Parsed(lines, parse)| == |lines|
    ensures forall k :: 0 <= k < |lines| ==> Some(Parsed(lines, parse)[k]) == parse(lines[k])
  {
    if lines != [] {
      var rest := lines[1..];
      assert parse(lines[0]).Some?;
      forall i | 0 <= i < |rest| ensures parse(rest[i]).Some? { assert rest[i] == lines[i + 1]; }
      ParsedEach(rest, parse);
      forall k | 0 <= k < |lines| ensures Some(Parsed(lines, parse)[k]) == parse(lines[k]) {
        if k > 0 { assert Parsed(lines, parse)[k] == Parsed(rest, parse)[k - 1] && lines[k] == rest[k - 1]; }
      }
    }
  }

  /** The frames of a response are the parsed visible lines of it, one each, in order. */
  ghost predicate FramesOf<T(!new)>(frames: seq<T>, lines: seq<string>, parse: string -> Option<T>) {
    exists at: seq<nat> ::
      && VisibleAt(lines, at) && |frames| == |at|
      && forall k :: 0 <= k < |at| ==> parse(lines[at[k]]) == Some(frames[k])
  }

  lemma {:induction false} AllVisibleParse<T(!new)>(lines: seq<string>, at: seq<nat>, parse: string -> Option<T>)
    requires VisibleAt(lines, at)
    ensures AllParse(Picked(lines, at), parse)
            <==> forall i :: 0 <= i < |lines| && Visible(lines[i]) ==> parse(lines[i]).Some?
  {
    if AllParse(Picked(lines, at), parse) {
      forall i | 0 <= i < |lines| && Visible(lines[i]) ensures parse(lines[i]).Some? {
        var k :| 0 <= k < |at| && at[k] == i;
        assert Picked(lines, at)[k] == lines[i];
      }
    }
  }

  /**
   What the one-shot reader, and with it the streamed one, makes of a response that consists of
   these lines: refused above 16 MiB, null when empty, and else one frame for each visible line.
   */
  lemma {:induction false} ReaderMeans<T(!new)>(lines: seq<string>, ends: seq<string>, content: string, bytes: nat,
                                                parse: string -> Option<T>)
    requires IsSplit(content, lines, ends) && (bytes == 0 ==> content == "")
    ensures var result := Batch(content, bytes, parse);
            && (result == Err(TooLarge) <==> bytes > 16_777_216)
            && (result == Err(BadJson)
                <==> bytes <= 16_777_216 && exists i :: 0 <= i < |lines| && Visible(lines[i]) && parse(lines[i]).None?)
            && (result == Ok(None) <==> bytes == 0)
            && (result.Ok? && bytes > 0 ==> FramesOf(result.value.value, lines, parse))
  {
    SplitUnique(content, lines, ends);
    var at := NonBlankIs(lines);
    AllVisibleParse(lines, at, parse);
    if bytes == 0 {
      OnlyLine("");
      assert !Visible("");
    } else if AllParse(Lines(content), parse) {
      ParsedEach(Lines(content), parse);
      forall k | 0 <= k < |at| ensures parse(lines[at[k]]) == Some(Parsed(Lines(content), parse)[k]) {
        assert Lines(content)[k] == lines[at[k]];
      }
    }
  }
}
