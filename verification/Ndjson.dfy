/**
 The two readers of newline-delimited JSON in the desktop client: the one-shot
 split of a whole response and the incremental splitter of a streamed one.

 `JSON.parse` is the same unknown partial function on both sides.  A chunk is the
 number of bytes that arrived and the text the streaming decoder made of them; the
 texts of the chunks and of the final flush concatenate to the decoded response.
 */
module Ndjson {
  import opened Wrappers

  const RESPONSE_LIMIT_BYTES := 16 * 1024 * 1024

  datatype Chunk = Chunk(bytes: nat, text: string)

  datatype Failure = TooLarge | BadJson

  /** The position of the first newline, or the length when there is none. */
  function FirstNewline(s: string): (i: nat)
    ensures i <= |s|
    ensures i < |s| ==> s[i] == '\n'
    ensures forall k :: 0 <= k < i ==> s[k] != '\n'
  {
    if s == "" || s[0] == '\n' then 0 else 1 + FirstNewline(s[1..])
  }

  function DropReturn(line: string): string {
    if line != "" && line[|line| - 1] == '\r' then line[..|line| - 1] else line
  }

  /** `s.split(/\r?\n/)`: a newline ends a line and takes one return before it along. */
  function Split(s: string): (lines: seq<string>)
    ensures lines != []
    decreases |s|
  {
    var i := FirstNewline(s);
    if i == |s| then [s] else [DropReturn(s[..i])] + Split(s[i + 1..])
  }

  /** What `String.prototype.trim` removes. */
  predicate IsSpace(c: char) {
    || '\t' <= c <= '\r'
    || '\U{2000}' <= c <= '\U{200A}'
    || c == ' ' || c == '\U{00A0}' || c == '\U{FEFF}' || c == '\U{1680}'
    || c == '\U{2028}' || c == '\U{2029}' || c == '\U{202F}' || c == '\U{205F}' || c == '\U{3000}'
  }

  predicate Blank(line: string) {
    forall i :: 0 <= i < |line| ==> IsSpace(line[i])
  }

  function NonBlank(lines: seq<string>): seq<string> {
    if lines == [] then []
    else (if Blank(lines[0]) then [] else [lines[0]]) + NonBlank(lines[1..])
  }

  /** Parsing stops at the first line that is not JSON. */
  function Parsed<T>(lines: seq<string>, parse: string -> Option<T>): seq<T> {
    if lines == [] || parse(lines[0]) == None then []
    else [parse(lines[0]).value] + Parsed(lines[1..], parse)
  }

  predicate AllParse<T(!new)>(lines: seq<string>, parse: string -> Option<T>) {
    forall i :: 0 <= i < |lines| ==> parse(lines[i]).Some?
  }

  function Text(chunks: seq<Chunk>): string {
    if chunks == [] then "" else Text(chunks[..|chunks| - 1]) + chunks[|chunks| - 1].text
  }

  function Bytes(chunks: seq<Chunk>): nat {
    if chunks == [] then 0 else Bytes(chunks[..|chunks| - 1]) + chunks[|chunks| - 1].bytes
  }

  /** The one-shot reader on a response of `bytes` bytes; an empty response is `null`. */
  function Batch<T(!new)>(content: string, bytes: nat, parse: string -> Option<T>): Result<Option<seq<T>>, Failure> {
    if bytes > RESPONSE_LIMIT_BYTES then Err(TooLarge)
    else if bytes == 0 then Ok(None)
    else
      var lines := Lines(content);
      if AllParse(lines, parse) then Ok(Some(Parsed(lines, parse))) else Err(BadJson)
  }

  function OrNone<T>(frames: Option<seq<T>>): seq<T> {
    if frames == None then [] else frames.value
  }

  function Front<T>(s: seq<T>): seq<T>
    requires s != []
  {
    s[..|s| - 1]
  }

  function Last<T>(s: seq<T>): T
    requires s != []
  {
    s[|s| - 1]
  }

  lemma SplitAt(s: string, i: nat)
    requires i < |s| && s[i] == '\n' && forall k :: 0 <= k < i ==> s[k] != '\n'
    ensures Split(s) == [DropReturn(s[..i])] + Split(s[i + 1..])
  {
  }

  lemma FrontLastConcat<T>(x: T, s: seq<T>, t: seq<T>)
    requires s != []
    ensures Last([x] + s) == Last(s)
    ensures [x] + (Front(s) + t) == Front([x] + s) + t
  {
  }

  /** Splitting can be resumed from the unfinished last line, wherever the text was cut. */
  lemma {:induction false} SplitResumes(a: string, b: string)
    ensures Split(a + b) == Front(Split(a)) + Split(Last(Split(a)) + b)
    decreases |a|
  {
    var i := FirstNewline(a);
    if i == |a| {
      assert Split(a) == [a];
      assert Front([a]) == [];
    } else {
      var line, rest := DropReturn(a[..i]), a[i + 1..];
      assert Split(a) == [line] + Split(rest) by { SplitAt(a, i); }
      assert Split(a + b) == [line] + Split(rest + b) by {
        assert (a + b)[..i] == a[..i] && (a + b)[i + 1..] == rest + b;
        SplitAt(a + b, i);
      }
      var lines := Split(rest);
      assert Split(rest + b) == Front(lines) + Split(Last(lines) + b) by { SplitResumes(rest, b); }
      FrontLastConcat(line, lines, Split(Last(lines) + b));
    }
  }

  lemma {:induction false} NonBlankConcat(a: seq<string>, b: seq<string>)
    ensures NonBlank(a + b) == NonBlank(a) + NonBlank(b)
  {
    if a == [] {
      assert a + b == b;
    } else {
      assert (a + b)[1..] == a[1..] + b;
      NonBlankConcat(a[1..], b);
    }
  }

  lemma {:induction false} AllParseCons<T(!new)>(line: string, rest: seq<string>, parse: string -> Option<T>)
    ensures AllParse([line] + rest, parse) <==> parse(line).Some? && AllParse(rest, parse)
  {
    var all := [line] + rest;
    if AllParse(all, parse) {
      assert parse(all[0]).Some?;
      forall i | 0 <= i < |rest| ensures parse(rest[i]).Some? { assert all[i + 1] == rest[i]; }
    }
  }

  lemma {:induction false} ParsedCons<T(!new)>(line: string, rest: seq<string>, parse: string -> Option<T>)
    ensures Parsed([line] + rest, parse) == if parse(line) == None then [] else [parse(line).value] + Parsed(rest, parse)
  {
    assert ([line] + rest)[1..] == rest;
  }

  lemma {:induction false} AllParseConcat<T(!new)>(a: seq<string>, b: seq<string>, parse: string -> Option<T>)
    ensures AllParse(a + b, parse) <==> AllParse(a, parse) && AllParse(b, parse)
  {
    if AllParse(a + b, parse) {
      forall i | 0 <= i < |a| ensures parse(a[i]).Some? { assert (a + b)[i] == a[i]; }
      forall i | 0 <= i < |b| ensures parse(b[i]).Some? { assert (a + b)[|a| + i] == b[i]; }
    }
  }

  lemma Joined<T>(first: T, middle: seq<T>, last: seq<T>)
    ensures [first] + (middle + last) == ([first] + middle) + last
  {
  }

  lemma {:induction false} ParsedJoined<T(!new)>(a: seq<string>, b: seq<string>, parse: string -> Option<T>)
    ensures Parsed(a + b, parse)
         == if AllParse(a, parse) then Parsed(a, parse) + Parsed(b, parse) else Parsed(a, parse)
  {
    if a == [] {
      assert a + b == b;
    } else {
      var line, rest := a[0], a[1..];
      assert a == [line] + rest && a + b == [line] + (rest + b);
      ParsedJoined(rest, b, parse);
      AllParseCons(line, rest, parse);
      ParsedCons(line, rest, parse);
      ParsedCons(line, rest + b, parse);
      if parse(line).Some? { Joined(parse(line).value, Parsed(rest, parse), Parsed(b, parse)); }
    }
  }

  lemma {:induction false} ParsedConcat<T(!new)>(a: seq<string>, b: seq<string>, parse: string -> Option<T>)
    ensures Parsed(a + b, parse)
         == if AllParse(a, parse) then Parsed(a, parse) + Parsed(b, parse) else Parsed(a, parse)
    ensures AllParse(a + b, parse) <==> AllParse(a, parse) && AllParse(b, parse)
  {
    ParsedJoined(a, b, parse);
    AllParseConcat(a, b, parse);
  }

  lemma NonBlankStep(all: seq<string>, seen: seq<string>, rest: seq<string>)
    requires rest != [] && all == seen + NonBlank(rest)
    ensures all == (if Blank(rest[0]) then seen else seen + [rest[0]]) + NonBlank(rest[1..])
  {
    var tail := NonBlank(rest[1..]);
    assert NonBlank(rest) == (if Blank(rest[0]) then [] else [rest[0]]) + tail;
    if Blank(rest[0]) {
      assert [] + tail == tail;
    } else {
      assert seen + ([rest[0]] + tail) == (seen + [rest[0]]) + tail;
    }
  }

  /** One more line for the parser: it adds a frame or ends everything. */
  lemma {:induction false} ParseStep<T(!new)>(all: seq<string>, seen: seq<string>, line: string, left: seq<string>,
                                              parse: string -> Option<T>)
    requires all == (seen + [line]) + left && AllParse(seen, parse)
    ensures parse(line) == None ==> Parsed(all, parse) == Parsed(seen, parse) && !AllParse(all, parse)
    ensures parse(line).Some? ==>
              AllParse(seen + [line], parse) && Parsed(seen + [line], parse) == Parsed(seen, parse) + [parse(line).value]
  {
    ParsedConcat(seen, [line], parse);
    ParsedConcat(seen + [line], left, parse);
    OneLine(line, parse);
  }

  lemma OneLine<T(!new)>(line: string, parse: string -> Option<T>)
    ensures AllParse([line], parse) <==> parse(line).Some?
    ensures Parsed([line], parse) == if parse(line) == None then [] else [parse(line).value]
  {
    assert [line][0] == line && [line][1..] == [];
  }

  /** The loop of `emitLines`: hand every non-blank line to the parser, stop where it throws. */
  method ParseLines<T(!new)>(lines: seq<string>, parse: string -> Option<T>) returns (frames: seq<T>, ok: bool)
    ensures frames == Parsed(NonBlank(lines), parse)
    ensures ok <==> AllParse(NonBlank(lines), parse)
  {
    frames, ok := [], true;
    ghost var all, seen: seq<string> := NonBlank(lines), [];
    var i := 0;
    assert lines[0..] == lines;
    while i < |lines|
      invariant 0 <= i <= |lines|
      invariant all == seen + NonBlank(lines[i..])
      invariant ok && AllParse(seen, parse) && frames == Parsed(seen, parse)
    {
      NonBlankStep(all, seen, lines[i..]);
      assert lines[i..][1..] == lines[i + 1..];
      if !Blank(lines[i]) {
        ParseStep(all, seen, lines[i], NonBlank(lines[i + 1..]), parse);
        seen := seen + [lines[i]];
        var frame := parse(lines[i]);
        if frame == None {
          return frames, false;
        }
        frames := frames + [frame.value];
      }
      i := i + 1;
    }
    assert all == seen;
  }

  /** `emitLines`: split the buffer, keep the unfinished line unless this is the end, emit the rest. */
  method EmitLines<T(!new)>(buffered: string, final: bool, parse: string -> Option<T>)
    returns (rest: string, frames: seq<T>, ok: bool)
    ensures rest == if final then "" else Last(Split(buffered))
    ensures var lines := NonBlank(if final then Split(buffered) else Front(Split(buffered)));
            frames == Parsed(lines, parse) && (ok <==> AllParse(lines, parse))
  {
    var lines := Split(buffered);
    rest := "";
    if !final {
      rest, lines := Last(lines), Front(lines);
    }
    frames, ok := ParseLines(lines, parse);
  }

  lemma {:induction false} TextBytesSplit(chunks: seq<Chunk>, i: nat)
    requires i <= |chunks|
    ensures Text(chunks) == Text(chunks[..i]) + Text(chunks[i..])
    ensures Bytes(chunks) == Bytes(chunks[..i]) + Bytes(chunks[i..])
  {
    if i == |chunks| {
      assert chunks[..i] == chunks && chunks[i..] == [];
    } else {
      var front := chunks[..|chunks| - 1];
      TextBytesSplit(front, i);
      assert front[..i] == chunks[..i];
      assert chunks[i..][..|chunks[i..]| - 1] == front[i..];
    }
  }

  /** After reading `text`: the lines already handed out, and the unfinished one held back. */
  function Emitted(text: string): seq<string> {
    NonBlank(Front(Split(text)))
  }

  function Held(text: string): string {
    Last(Split(text))
  }

  function Lines(text: string): seq<string> {
    NonBlank(Split(text))
  }

  lemma LinesResume(a: string, b: string)
    ensures Lines(a + b) == Emitted(a) + Lines(Held(a) + b)
  {
    SplitResumes(a, b);
    NonBlankConcat(Front(Split(a)), Split(Held(a) + b));
  }

  lemma EmittedResumes(a: string, b: string)
    ensures Held(a + b) == Held(Held(a) + b)
    ensures Emitted(a + b) == Emitted(a) + Emitted(Held(a) + b)
  {
    SplitResumes(a, b);
    var x, y := Front(Split(a)), Split(Held(a) + b);
    assert Front(x + y) == x + Front(y);
    NonBlankConcat(x, Front(y));
  }

  /** What was handed out after reading a part is a prefix of what the whole yields. */
  lemma EmittedIsPrefix<T(!new)>(a: string, b: string, whole: string, parse: string -> Option<T>)
    requires whole == a + b
    ensures Parsed(Emitted(a), parse) <= Parsed(Lines(whole), parse)
    ensures !AllParse(Emitted(a), parse) ==>
              Parsed(Emitted(a), parse) == Parsed(Lines(whole), parse) && !AllParse(Lines(whole), parse)
  {
    LinesResume(a, b);
    ParsedConcat(Emitted(a), Lines(Held(a) + b), parse);
  }

  /** One turn of the read loop: append a decoded chunk to the buffer and emit its whole lines. */
  method ReadChunk<T(!new)>(ghost before: string, buffered: string, text: string, parse: string -> Option<T>)
    returns (rest: string, frames: seq<T>, ok: bool)
    requires buffered == Held(before) && AllParse(Emitted(before), parse)
    ensures rest == Held(before + text)
    ensures ok <==> AllParse(Emitted(before + text), parse)
    ensures Parsed(Emitted(before + text), parse) == Parsed(Emitted(before), parse) + frames
  {
    EmittedResumes(before, text);
    ParsedConcat(Emitted(before), Emitted(buffered + text), parse);
    rest, frames, ok := EmitLines(buffered + text, false, parse);
  }

  /** The end of the stream: the decoder's last characters complete the buffer, and all of it is emitted. */
  method Flush<T(!new)>(ghost before: string, buffered: string, tail: string, parse: string -> Option<T>)
    returns (frames: seq<T>, ok: bool)
    requires buffered == Held(before) && AllParse(Emitted(before), parse)
    ensures ok <==> AllParse(Lines(before + tail), parse)
    ensures Parsed(Lines(before + tail), parse) == Parsed(Emitted(before), parse) + frames
  {
    LinesResume(before, tail);
    ParsedConcat(Emitted(before), Lines(buffered + tail), parse);
    var _, emitted, done := EmitLines(buffered + tail, true, parse);
    return emitted, done;
  }

  lemma TextBytesNext(chunks: seq<Chunk>, i: nat)
    requires i < |chunks|
    ensures Text(chunks[..i + 1]) == Text(chunks[..i]) + chunks[i].text
    ensures Bytes(chunks[..i + 1]) == Bytes(chunks[..i]) + chunks[i].bytes
    ensures Bytes(chunks[..i + 1]) <= Bytes(chunks)
  {
    assert chunks[..i + 1][..i] == chunks[..i];
    TextBytesSplit(chunks, i + 1);
  }

  lemma Remaining(chunks: seq<Chunk>, i: nat, tail: string) returns (rest: string)
    requires i <= |chunks|
    ensures Text(chunks) + tail == Text(chunks[..i]) + rest
  {
    TextBytesSplit(chunks, i);
    rest := Text(chunks[i..]) + tail;
  }

  /** Stopping after `i` chunks has handed out a prefix; after a bad line, everything there is. */
  lemma CutShort<T(!new)>(chunks: seq<Chunk>, i: nat, tail: string, parse: string -> Option<T>)
    requires i <= |chunks|
    ensures var part, whole := Emitted(Text(chunks[..i])), Lines(Text(chunks) + tail);
            && Parsed(part, parse) <= Parsed(whole, parse)
            && (!AllParse(part, parse) ==> Parsed(part, parse) == Parsed(whole, parse) && !AllParse(whole, parse))
  {
    var rest := Remaining(chunks, i, tail);
    EmittedIsPrefix(Text(chunks[..i]), rest, Text(chunks) + tail, parse);
  }

  /** The one-shot reader fails on too much or on a bad line only. */
  lemma BatchIs<T(!new)>(content: string, bytes: nat, parse: string -> Option<T>)
    requires bytes == 0 ==> content == ""
    ensures Batch(content, bytes, parse).Ok? <==> bytes <= RESPONSE_LIMIT_BYTES && AllParse(Lines(content), parse)
    ensures Batch(content, bytes, parse).Ok? ==>
              OrNone(Batch(content, bytes, parse).value) == Parsed(Lines(content), parse)
  {
    if bytes == 0 { assert Lines(content) == NonBlank([""]) == []; }
  }

  /**
   The streamed reader succeeds exactly when the one-shot reader would and then has
   handed out the same frames, none for `null`, wherever the response was cut.  When it
   fails it has handed out a prefix: all frames before the first bad line, if that is the
   cause.  No bytes decode to no text.
   */
  method StreamPayload<T(!new)>(chunks: seq<Chunk>, tail: string, parse: string -> Option<T>)
    returns (frames: seq<T>, failure: Option<Failure>)
    requires Bytes(chunks) == 0 ==> Text(chunks) + tail == ""
    ensures failure == None <==> Batch(Text(chunks) + tail, Bytes(chunks), parse).Ok?
    ensures failure == None ==> frames == OrNone(Batch(Text(chunks) + tail, Bytes(chunks), parse).value)
    ensures frames <= Parsed(Lines(Text(chunks) + tail), parse)
    ensures failure == Some(BadJson) ==> frames == Parsed(Lines(Text(chunks) + tail), parse)
    ensures failure == Some(TooLarge) ==> Bytes(chunks) > RESPONSE_LIMIT_BYTES
  {
    BatchIs(Text(chunks) + tail, Bytes(chunks), parse);
    var buffered, receivedBytes := "", 0;
    frames := [];
    for i := 0 to |chunks|
      invariant receivedBytes == Bytes(chunks[..i]) <= RESPONSE_LIMIT_BYTES
      invariant buffered == Held(Text(chunks[..i]))
      invariant AllParse(Emitted(Text(chunks[..i])), parse)
      invariant frames == Parsed(Emitted(Text(chunks[..i])), parse)
    {
      TextBytesNext(chunks, i);
      receivedBytes := receivedBytes + chunks[i].bytes;
      if receivedBytes > RESPONSE_LIMIT_BYTES {
        CutShort(chunks, i, tail, parse);
        return frames, Some(TooLarge);
      }
      var emitted, ok;
      buffered, emitted, ok := ReadChunk(Text(chunks[..i]), buffered, chunks[i].text, parse);
      frames := frames + emitted;
      if !ok {
        CutShort(chunks, i + 1, tail, parse);
        return frames, Some(BadJson);
      }
    }
    assert chunks[..|chunks|] == chunks;
    var last, ok := Flush(Text(chunks), buffered, tail, parse);
    frames := frames + last;
    failure := if ok then None else Some(BadJson);
  }
}
