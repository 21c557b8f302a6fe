/**
 What a model sees of a room: a rolling summary of the older messages and a window
 over the newest ones, both bounded in characters.
 */
module ContextWindow {
  import opened Wrappers
  import opened PythonText

  datatype Author = User | System | Agent

  const MESSAGE_MAXIMUM := 100_000

  datatype Message = Message(room: string, sequence: nat, author: Author, content: string)

  /** What the message contract accepts: trimmed text, not empty and not too long. */
  predicate Valid(content: string) {
    1 <= |content| <= MESSAGE_MAXIMUM && Trimmed(content)
  }

  predicate AllValid(messages: seq<Message>) {
    forall i :: 0 <= i < |messages| ==> Valid(messages[i].content)
  }

  datatype Summary = Summary(room: string, through: nat, content: string)

  datatype ModelRole = SystemRole | UserRole | AssistantRole

  datatype ModelMessage = ModelMessage(role: ModelRole, content: string)

  datatype Window = Window(messages: seq<ModelMessage>, through: nat)

  function Decimal(n: nat): (s: string)
    ensures s != ""
  {
    (if n < 10 then "" else Decimal(n / 10)) + [('0' as int + n % 10) as char]
  }

  function ReadDecimal(digits: string): nat
    requires forall i :: 0 <= i < |digits| ==> '0' <= digits[i] <= '9'
  {
    if digits == "" then 0
    else 10 * ReadDecimal(digits[..|digits| - 1]) + (digits[|digits| - 1] as int - '0' as int)
  }

  /** A number's digits read back as the number, without a leading zero. */
  lemma {:induction false} DecimalReads(n: nat)
    ensures forall i :: 0 <= i < |Decimal(n)| ==> '0' <= Decimal(n)[i] <= '9'
    ensures ReadDecimal(Decimal(n)) == n && (n > 0 ==> Decimal(n)[0] != '0')
  {
    if n >= 10 {
      DecimalReads(n / 10);
      assert Decimal(n)[..|Decimal(n)| - 1] == Decimal(n / 10);
    } else {
      assert Decimal(n) == [('0' as int + n) as char] && Decimal(n)[..0] == "";
      assert ReadDecimal(Decimal(n)[..0]) == 0;
    }
  }

  function AuthorName(author: Author): string {
    match author
    case User => "user"
    case System => "system"
    case Agent => "agent"
  }

  function ToModel(m: Message): ModelMessage {
    ModelMessage(match m.author case User => UserRole case Agent => AssistantRole case System => SystemRole, m.content)
  }

  function ToModels(messages: seq<Message>): seq<ModelMessage> {
    seq(|messages|, i requires 0 <= i < |messages| => ToModel(messages[i]))
  }

  function SummaryMessage(s: Summary): ModelMessage {
    ModelMessage(SystemRole, "Conversation summary through message " + Decimal(s.through) + ":\n" + s.content)
  }

  /** The messages numbered above `after`. */
  function Pending(messages: seq<Message>, after: nat): seq<Message> {
    if messages == [] then []
    else if messages[0].sequence > after then [messages[0]] + Pending(messages[1..], after)
    else Pending(messages[1..], after)
  }

  /** The characters in the last `k` messages. */
  function TailTotal(messages: seq<Message>, k: nat): nat
    requires k <= |messages|
  {
    if k == 0 then 0 else |messages[|messages| - k].content| + TailTotal(messages, k - 1)
  }

  function Total(messages: seq<Message>): nat {
    TailTotal(messages, |messages|)
  }

  function Through(summary: Option<Summary>): nat {
    if summary == None then 0 else summary.value.through
  }

  function SummaryLength(summary: Option<Summary>): nat {
    if summary == None then 0 else |summary.value.content|
  }

  predicate SameRoom(room: string, messages: seq<Message>) {
    forall i :: 0 <= i < |messages| ==> messages[i].room == room
  }

  // --------------------------------------------------------------- the window

  /**
   `selected` is the longest suffix of the candidates that fits the budget, or the
   newest message alone when even that one does not fit.
   */
  ghost predicate Selects(selected: seq<Message>, candidates: seq<Message>, budget: int) {
    && |selected| <= |candidates|
    && selected == candidates[|candidates| - |selected|..]
    && (candidates != [] ==> selected != [])
    && (TailTotal(candidates, |selected|) <= budget || |selected| <= 1)
    && (|selected| < |candidates| ==> TailTotal(candidates, |selected| + 1) > budget)
  }

  lemma {:induction false} TailTotalGrows(messages: seq<Message>, i: nat, j: nat)
    requires i <= j <= |messages|
    ensures TailTotal(messages, i) <= TailTotal(messages, j)
  {
    if i < j { TailTotalGrows(messages, i, j - 1); }
  }

  /** The suffix from `i` on leaves `remaining` of the budget, and exceeds it only as a single message. */
  ghost predicate Spends(candidates: seq<Message>, i: nat, remaining: int, budget: int)
    requires i <= |candidates|
  {
    && remaining == budget - TailTotal(candidates, |candidates| - i)
    && (|candidates| - i <= 1 || remaining >= 0)
  }

  lemma {:induction false} SpendsNext(candidates: seq<Message>, i: nat, remaining: int, budget: int)
    requires 0 < i <= |candidates| && Spends(candidates, i, remaining, budget)
    requires i == |candidates| || |candidates[i - 1].content| <= remaining
    ensures Spends(candidates, i - 1, remaining - |candidates[i - 1].content|, budget)
  {
  }

  /** A suffix that fits, or is one message, and that the next older message would push over the budget. */
  lemma {:induction false} FullSuffix(candidates: seq<Message>, i: nat, remaining: int, budget: int)
    requires i <= |candidates| && (candidates != [] ==> i < |candidates|)
    requires Spends(candidates, i, remaining, budget) && (i > 0 ==> |candidates[i - 1].content| > remaining)
    ensures Selects(candidates[i..], candidates, budget)
  {
  }

  /** There is only one such suffix. */
  lemma SelectionUnique(a: seq<Message>, b: seq<Message>, candidates: seq<Message>, budget: int)
    requires Selects(a, candidates, budget) && Selects(b, candidates, budget)
    ensures a == b
  {
    if |a| < |b| {
      TailTotalGrows(candidates, |a| + 1, |b|);
    } else if |b| < |a| {
      TailTotalGrows(candidates, |b| + 1, |a|);
    }
  }

  lemma {:induction false} LongestFitting(candidates: seq<Message>, budget: int, k: nat) returns (selected: seq<Message>)
    requires k <= |candidates| && (candidates != [] ==> k >= 1)
    requires TailTotal(candidates, k) <= budget || k <= 1
    ensures Selects(selected, candidates, budget)
    decreases |candidates| - k
  {
    if k < |candidates| && TailTotal(candidates, k + 1) <= budget {
      selected := LongestFitting(candidates, budget, k + 1);
    } else {
      selected := candidates[|candidates| - k..];
    }
  }

  /** There always is one. */
  lemma SelectionExists(candidates: seq<Message>, budget: int) returns (selected: seq<Message>)
    ensures Selects(selected, candidates, budget)
  {
    selected := LongestFitting(candidates, budget, if candidates == [] then 0 else 1);
  }

  lemma {:induction false} TailTotalConcat(a: seq<Message>, b: seq<Message>, k: nat)
    requires k <= |a| + |b|
    ensures TailTotal(a + b, k) == if k <= |b| then TailTotal(b, k) else TailTotal(b, |b|) + TailTotal(a, k - |b|)
  {
    if k > 0 { TailTotalConcat(a, b, k - 1); }
  }

  lemma TotalConcat(a: seq<Message>, b: seq<Message>)
    ensures Total(a + b) == Total(a) + Total(b)
  {
    TailTotalConcat(a, b, |a| + |b|);
  }

  /** Nothing pending is left out exactly when it is few enough and short enough. */
  lemma DropsNothingIff(selected: seq<Message>, pending: seq<Message>, limit: nat, budget: int)
    requires limit >= 1 && Selects(selected, LastN(pending, limit), budget)
    ensures selected == pending
            <==> |pending| <= limit && (Total(pending) <= budget || |pending| <= 1)
  {
    if |pending| <= limit && |selected| < |pending| {
      TailTotalGrows(pending, |selected| + 1, |pending|);
    }
  }

  /** The summary, if any, as a system message in front of the selected messages. */
  function Render(summary: Option<Summary>, selected: seq<Message>): Window {
    Window((if summary == None then [] else [SummaryMessage(summary.value)]) + ToModels(selected),
           if selected == [] then Through(summary) else selected[|selected| - 1].sequence)
  }

  /** Whose words the model takes a message for. */
  predicate SpeaksAs(author: Author, role: ModelRole) {
    && (role == UserRole <==> author == User)
    && (role == AssistantRole <==> author == Agent)
    && (role == SystemRole <==> author == System)
  }

  /** The model sees the selected messages, each as its author's words, behind a system message with the summary. */
  ghost predicate Shows(window: Window, summary: Option<Summary>, selected: seq<Message>) {
    var first := if summary.Some? then 1 else 0;
    && |window.messages| == first + |selected|
    && (forall k :: 0 <= k < |selected| ==>
          && window.messages[first + k].content == selected[k].content
          && SpeaksAs(selected[k].author, window.messages[first + k].role))
    && (summary.Some? ==>
          && window.messages[0].role == SystemRole
          && window.messages[0].content
             == "Conversation summary through message " + Decimal(summary.value.through) + ":\n" + summary.value.content)
    && window.through == if selected != [] then selected[|selected| - 1].sequence
                         else if summary.Some? then summary.value.through else 0
  }

  lemma {:induction false} ModelsShow(head: seq<ModelMessage>, selected: seq<Message>)
    ensures |head + ToModels(selected)| == |head| + |selected|
    ensures forall k :: 0 <= k < |selected| ==>
              var message := (head + ToModels(selected))[|head| + k];
              message.content == selected[k].content && SpeaksAs(selected[k].author, message.role)
  {
  }

  lemma {:induction false} RenderBare(selected: seq<Message>)
    ensures Shows(Render(None, selected), None, selected)
  {
    ModelsShow([], selected);
    assert [] + ToModels(selected) == ToModels(selected);
  }

  lemma {:induction false} RenderBehind(summary: Summary, selected: seq<Message>)
    ensures Shows(Render(Some(summary), selected), Some(summary), selected)
  {
    var head := [SummaryMessage(summary)];
    ModelsShow(head, selected);
    assert (head + ToModels(selected))[0] == SummaryMessage(summary);
  }

  lemma {:induction false} RenderShows(summary: Option<Summary>, selected: seq<Message>)
    ensures Shows(Render(summary, selected), summary, selected)
  {
    match summary
    case None => RenderBare(selected);
    case Some(s) => RenderBehind(s, selected);
  }

  lemma {:induction false} PendingValid(messages: seq<Message>, after: nat)
    requires AllValid(messages)
    ensures AllValid(Pending(messages, after))
  {
    if messages != [] { PendingValid(messages[1..], after); }
  }

  /** There is one such window. */
  lemma {:induction false} ShownUnique(a: Window, b: Window, summary: Option<Summary>, selected: seq<Message>)
    requires Shows(a, summary, selected) && Shows(b, summary, selected)
    ensures a == b
  {
    var first := if summary.Some? then 1 else 0;
    forall k | 0 <= k < |a.messages| ensures a.messages[k] == b.messages[k] {
      if k >= first {
        assert a.messages[first + (k - first)].content == selected[k - first].content;
        assert b.messages[first + (k - first)].content == selected[k - first].content;
      }
    }
  }

  lemma {:induction false} LastValid(messages: seq<Message>, n: nat)
    requires AllValid(messages)
    ensures AllValid(LastN(messages, n))
  {
  }

  class ContextBuilder {
    const maxCharacters: nat
    const recentMessageLimit: nat

    constructor (maxCharacters: nat, recentMessageLimit: nat)
      requires maxCharacters >= 1000 && recentMessageLimit >= 1
      ensures this.maxCharacters == maxCharacters && this.recentMessageLimit == recentMessageLimit
    {
      this.maxCharacters, this.recentMessageLimit := maxCharacters, recentMessageLimit;
    }

    method Choose(candidates: seq<Message>, budget: int) returns (chosen: seq<Message>)
      requires AllValid(candidates)
      ensures Selects(chosen, candidates, budget)
    {
      chosen := [];
      var remaining := budget;
      var i := |candidates|;
      while i > 0
        invariant 0 <= i <= |candidates|
        invariant |chosen| == |candidates| - i && chosen == candidates[i..]
        invariant Spends(candidates, i, remaining, budget)
      {
        var message := candidates[i - 1];
        if chosen != [] && |message.content| > remaining {
          break;
        }
        SpendsNext(candidates, i, remaining, budget);
        assert candidates[i - 1..] == [message] + candidates[i..];
        assert i > 1 ==> Valid(candidates[i - 2].content);
        chosen := [message] + chosen;
        remaining := remaining - |message.content|;
        i := i - 1;
        if remaining <= 0 {
          break;
        }
      }
      FullSuffix(candidates, i, remaining, budget);
    }

    /** The longest end of the recent pending messages that fits what the summary leaves of the budget. */
    ghost predicate Fills(selected: seq<Message>, messages: seq<Message>, summary: Option<Summary>) {
      Selects(selected, LastN(Pending(messages, Through(summary)), recentMessageLimit),
              maxCharacters - if summary.Some? then |summary.value.content| else 0)
    }

    method Select(messages: seq<Message>, summary: Option<Summary>) returns (selected: seq<Message>)
      requires AllValid(messages)
      ensures Fills(selected, messages, summary)
    {
      var pending := Pending(messages, Through(summary));
      PendingValid(messages, Through(summary));
      LastValid(pending, recentMessageLimit);
      selected := Choose(LastN(pending, recentMessageLimit),
                         maxCharacters - if summary.Some? then |summary.value.content| else 0);
    }

    method Assemble(summary: Option<Summary>, selected: seq<Message>) returns (window: Window)
      ensures Shows(window, summary, selected)
    {
      RenderShows(summary, selected);
      window := Render(summary, selected);
    }

    method Build(roomId: string, messages: seq<Message>, summary: Option<Summary>)
      returns (result: Result<Window, string>, ghost selected: seq<Message>)
      requires recentMessageLimit >= 1 && AllValid(messages)
      ensures result.Ok? <==> SameRoom(roomId, messages) && (summary.Some? ==> summary.value.room == roomId)
      ensures result.Err? ==> result.error == "context.room_isolation_violation"
      ensures result.Ok? ==> Fills(selected, messages, summary) && Shows(result.value, summary, selected)
    {
      if !SameRoom(roomId, messages) || (summary.Some? && summary.value.room != roomId) {
        return Err("context.room_isolation_violation"), [];
      }
      var chosen := Select(messages, summary);
      var window := Assemble(summary, chosen);
      return Ok(window), chosen;
    }
  }

  // -------------------------------------------------------------- the summary

  function Line(m: Message): string {
    "[" + Decimal(m.sequence) + " " + AuthorName(m.author) + "] " + m.content
  }

  /** `"\n".join`. */
  function JoinLines(messages: seq<Message>): string {
    if messages == [] then ""
    else if |messages| == 1 then Line(messages[0])
    else JoinLines(messages[..|messages| - 1]) + "\n" + Line(messages[|messages| - 1])
  }

  function SummaryPrefix(current: Option<Summary>): string {
    if current == None then "" else "Previous summary:\n" + current.value.content + "\n\n"
  }

  function SummaryContent(current: Option<Summary>, summarized: seq<Message>, maximum: nat): string {
    Strip(LastN(SummaryPrefix(current) + JoinLines(summarized), maximum))
  }

  /** The lines of a transcript, each with its number and author, one below the other. */
  function Transcript(messages: seq<Message>): string {
    if messages == [] then ""
    else
      var m := messages[0];
      "[" + Decimal(m.sequence) + " " + (if m.author == User then "user" else if m.author == Agent then "agent" else "system")
      + "] " + m.content + if |messages| == 1 then "" else "\n" + Transcript(messages[1..])
  }

  lemma Regrouped(head: string, rest: string, line: string)
    ensures head + ("\n" + (rest + "\n" + line)) == (head + ("\n" + rest)) + "\n" + line
  {
  }

  lemma {:induction false} TranscriptCons(m: Message, rest: seq<Message>)
    ensures Transcript([m] + rest) == Line(m) + if rest == [] then "" else "\n" + Transcript(rest)
  {
    assert ([m] + rest)[1..] == rest;
  }

  lemma {:induction false} TranscriptMore(messages: seq<Message>, last: Message)
    ensures Transcript(messages + [last]) == (if messages == [] then "" else Transcript(messages) + "\n") + Line(last)
    decreases |messages|
  {
    if messages == [] {
      assert messages + [last] == [last] + [];
      TranscriptCons(last, []);
    } else {
      var m, rest := messages[0], messages[1..];
      assert messages == [m] + rest && messages + [last] == [m] + (rest + [last]);
      TranscriptMore(rest, last);
      TranscriptCons(m, rest);
      TranscriptCons(m, rest + [last]);
      if rest != [] { Regrouped(Line(m), Transcript(rest), Line(last)); }
    }
  }

  lemma {:induction false} JoinMore(messages: seq<Message>, last: Message)
    ensures JoinLines(messages + [last]) == (if messages == [] then "" else JoinLines(messages) + "\n") + Line(last)
  {
    assert (messages + [last])[..|messages|] == messages;
  }

  lemma {:induction false} JoinIsTranscript(messages: seq<Message>)
    ensures JoinLines(messages) == Transcript(messages)
  {
    if messages != [] {
      var front, last := messages[..|messages| - 1], messages[|messages| - 1];
      assert messages == front + [last];
      JoinIsTranscript(front);
      TranscriptMore(front, last);
      JoinMore(front, last);
    }
  }

  /** What the next summary would say if it could be as long as it likes. */
  function WholeSummary(current: Option<Summary>, summarized: seq<Message>): string {
    (if current.Some? then "Previous summary:\n" + current.value.content + "\n\n" else "") + Transcript(summarized)
  }

  lemma {:induction false} WholeIs(current: Option<Summary>, summarized: seq<Message>)
    ensures WholeSummary(current, summarized) == SummaryPrefix(current) + JoinLines(summarized)
  {
    JoinIsTranscript(summarized);
  }

  lemma {:induction false} EndOfVisible(text: string, maximum: nat)
    requires Trimmed(text)
    ensures Strip(LastN(text, maximum)) == if |text| <= maximum then text else Strip(text[|text| - maximum..])
  {
    StripKeeps(text);
  }

  lemma {:induction false} TrimmedAround(text: string, start: string, end: string)
    requires text == start + end && end != "" && !IsSpace(end[|end| - 1]) && !IsSpace(text[0])
    ensures Trimmed(text)
  {
    EndsWith(start, end);
  }

  lemma {:induction false} WholeIsTrimmed(current: Option<Summary>, summarized: seq<Message>)
    requires summarized != [] && Valid(summarized[|summarized| - 1].content)
    ensures Trimmed(WholeSummary(current, summarized))
  {
    WholeStartsVisibly(current, summarized);
    JoinEndsVisibly(summarized);
    WholeIs(current, summarized);
    TrimmedAround(WholeSummary(current, summarized), SummaryPrefix(current), JoinLines(summarized));
  }

  lemma {:induction false} WholeStartsVisibly(current: Option<Summary>, summarized: seq<Message>)
    requires summarized != []
    ensures WholeSummary(current, summarized) != "" && !IsSpace(WholeSummary(current, summarized)[0])
  {
    assert current.Some? ==> WholeSummary(current, summarized)[0] == 'P';
    assert current.None? ==> WholeSummary(current, summarized)[0] == '[';
  }

  /** The summary says all of it when that fits, and else the trimmed end of it. */
  lemma {:induction false} SummarySays(current: Option<Summary>, summarized: seq<Message>, maximum: nat)
    requires summarized != [] && Valid(summarized[|summarized| - 1].content)
    ensures var whole, content := WholeSummary(current, summarized), SummaryContent(current, summarized, maximum);
            && (|whole| <= maximum ==> content == whole)
            && (|whole| > maximum ==> content == Strip(whole[|whole| - maximum..]))
  {
    WholeIs(current, summarized);
    WholeIsTrimmed(current, summarized);
    EndOfVisible(WholeSummary(current, summarized), maximum);
  }

  const SUMMARY_MINIMUM := 4
  const SUMMARY_KEPT := 2

  /** The messages the next summary absorbs: none until enough text is pending. */
  function Summarized(messages: seq<Message>, after: nat, trigger: nat): seq<Message> {
    var pending := Pending(messages, after);
    if |pending| < SUMMARY_MINIMUM || Total(pending) < trigger then [] else pending[..|pending| - SUMMARY_KEPT]
  }

  /** `RollingSummaryBuilder.build`. */
  function NextSummary(room: string, messages: seq<Message>, current: Option<Summary>, trigger: nat, maximum: nat)
    : Result<Option<Summary>, string>
  {
    if !SameRoom(room, messages) then Err("context.room_isolation_violation")
    else
      var summarized := Summarized(messages, Through(current), trigger);
      if summarized == [] then Ok(None)
      else Ok(Some(Summary(room, summarized[|summarized| - 1].sequence,
                           SummaryContent(current, summarized, maximum))))
  }

  ghost predicate Numbered(messages: seq<Message>) {
    forall i, j :: 0 <= i < j < |messages| ==> messages[i].sequence < messages[j].sequence
  }

  /** Pending is what lies behind a place that parts the numbers at the boundary. */
  lemma {:induction false} PendingIs(messages: seq<Message>, after: nat, k: nat)
    requires k <= |messages|
    requires forall i :: 0 <= i < k ==> messages[i].sequence <= after
    requires forall i :: k <= i < |messages| ==> messages[i].sequence > after
    ensures Pending(messages, after) == messages[k..]
  {
    if messages != [] {
      var rest := messages[1..];
      if k == 0 {
        PendingIs(rest, after, 0);
        assert rest[0..] == rest && messages[0..] == [messages[0]] + rest;
      } else {
        PendingIs(rest, after, k - 1);
        assert rest[k - 1..] == messages[k..];
      }
    }
  }

  lemma {:induction false} PartsAt(messages: seq<Message>, after: nat) returns (k: nat)
    requires Numbered(messages)
    ensures k <= |messages|
    ensures forall i :: 0 <= i < k ==> messages[i].sequence <= after
    ensures forall i :: k <= i < |messages| ==> messages[i].sequence > after
  {
    k := 0;
    while k < |messages| && messages[k].sequence <= after
      invariant k <= |messages| && forall i :: 0 <= i < k ==> messages[i].sequence <= after
    {
      k := k + 1;
    }
  }

  lemma EndsWith(start: string, end: string)
    requires end != ""
    ensures (start + end)[|start + end| - 1] == end[|end| - 1]
  {
  }

  lemma {:induction false} JoinEndsVisibly(messages: seq<Message>)
    requires messages != [] && Valid(messages[|messages| - 1].content)
    ensures JoinLines(messages) != "" && !IsSpace(JoinLines(messages)[|JoinLines(messages)| - 1])
  {
    var n, last := |messages|, messages[|messages| - 1];
    EndsWith("[" + Decimal(last.sequence) + " " + AuthorName(last.author) + "] ", last.content);
    if n > 1 { EndsWith(JoinLines(messages[..n - 1]) + "\n", Line(last)); }
  }

  lemma TailEnd(text: string, end: string, maximum: nat)
    requires end != "" && !IsSpace(end[|end| - 1]) && maximum >= 1
    ensures var tail := LastN(text + end, maximum); tail != "" && !IsSpace(tail[|tail| - 1]) && |tail| <= maximum
  {
  }

  lemma {:induction false} SummaryBounded(current: Option<Summary>, summarized: seq<Message>, maximum: nat)
    requires summarized != [] && maximum >= 1 && Valid(summarized[|summarized| - 1].content)
    ensures var content := SummaryContent(current, summarized, maximum);
            1 <= |content| <= maximum && Trimmed(content)
  {
    JoinEndsVisibly(summarized);
    TailEnd(SummaryPrefix(current), JoinLines(summarized), maximum);
    StripTrims(LastN(SummaryPrefix(current) + JoinLines(summarized), maximum));
  }

  /** A new boundary leaves exactly the last two pending messages beyond it. */
  lemma {:induction false} BoundaryMoves(messages: seq<Message>, after: nat)
    requires Numbered(messages) && |Pending(messages, after)| >= SUMMARY_MINIMUM
    ensures |Pending(messages, after)| <= |messages|
    ensures var pending := Pending(messages, after);
            && pending[|pending| - 3] == messages[|messages| - 3]
            && messages[|messages| - 3].sequence > after
            && Pending(messages, messages[|messages| - 3].sequence) == pending[|pending| - 2..]
  {
    var n := |messages|;
    var k := PartsAt(messages, after);
    PendingIs(messages, after, k);
    PendingBehind(messages, n - 3);
    assert messages[k..][n - k - 2..] == messages[n - 2..];
  }

  lemma {:induction false} PendingBehind(messages: seq<Message>, i: nat)
    requires Numbered(messages) && i < |messages|
    ensures Pending(messages, messages[i].sequence) == messages[i + 1..]
  {
    PendingIs(messages, messages[i].sequence, i + 1);
  }

  lemma SummarizedEnds(messages: seq<Message>, after: nat, trigger: nat)
    requires Summarized(messages, after, trigger) != []
    ensures var pending, summarized := Pending(messages, after), Summarized(messages, after, trigger);
            |pending| >= SUMMARY_MINIMUM && summarized[|summarized| - 1] == pending[|pending| - 3]
  {
  }

  /** A new summary covers everything but the last two pending messages and respects its bound. */
  lemma SummaryAdvances(room: string, messages: seq<Message>, current: Option<Summary>, trigger: nat, maximum: nat,
                        next: Summary)
    requires Numbered(messages) && AllValid(messages) && maximum >= 1
    requires NextSummary(room, messages, current, trigger, maximum) == Ok(Some(next))
    ensures next.through > Through(current) && |Pending(messages, Through(current))| >= 4
    ensures |messages| >= 3 && next.through == messages[|messages| - 3].sequence
    ensures Pending(messages, next.through) == LastN(Pending(messages, Through(current)), 2)
    ensures next.room == room && 1 <= |next.content| <= maximum && Trimmed(next.content)
  {
    var after := Through(current);
    SummarizedEnds(messages, after, trigger);
    BoundaryMoves(messages, after);
    PendingValid(messages, after);
    SummaryBounded(current, Summarized(messages, after, trigger), maximum);
  }

  /**
   A new summary says what the old one said and every message it absorbs, in order and by number
   and author, as far as that fits from the end.
   */
  lemma {:induction false} SummaryCarries(room: string, messages: seq<Message>, current: Option<Summary>, trigger: nat,
                                          maximum: nat, absorbed: seq<Message>, next: Summary)
    requires AllValid(messages) && |Pending(messages, Through(current))| >= 4
    requires absorbed + LastN(Pending(messages, Through(current)), 2) == Pending(messages, Through(current))
    requires NextSummary(room, messages, current, trigger, maximum) == Ok(Some(next))
    ensures var whole := WholeSummary(current, absorbed);
            next.content == if |whole| <= maximum then whole else Strip(whole[|whole| - maximum..])
  {
    var pending := Pending(messages, Through(current));
    PendingValid(messages, Through(current));
    assert absorbed == pending[..|pending| - 2];
    assert Summarized(messages, Through(current), trigger) == absorbed;
    SummarySays(current, absorbed, maximum);
  }

  /** There is a new summary exactly when four messages are pending and together reach the trigger. */
  lemma {:induction false} SummarizesIff(room: string, messages: seq<Message>, current: Option<Summary>, trigger: nat,
                                         maximum: nat)
    ensures var result, pending := NextSummary(room, messages, current, trigger, maximum), Pending(messages, Through(current));
            && (result == Err("context.room_isolation_violation")
                <==> exists i :: 0 <= i < |messages| && messages[i].room != room)
            && (result.Ok? ==> (result.value.Some? <==> |pending| >= 4 && Total(pending) >= trigger))
  {
  }
}
