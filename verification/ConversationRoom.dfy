/**
 A room over many agent runs: messages are appended, and every run first rolls the
 summary forward and then cuts the context window the models will see.
 */
module ConversationRoom {
  import opened Wrappers
  import opened PythonText
  import opened ContextWindow

  const LOAD_LIMIT := 10_000

  datatype Limits = Limits(trigger: nat, summaryMaximum: nat, contextMaximum: nat, recent: nat)

  datatype Room = Room(id: string, messages: seq<Message>, summaries: seq<Summary>)

  datatype Step =
    | Append(author: Author, text: string)
    | StartRun(instruction: string)

  const RECENT_MESSAGES := 64

  /** What the settings accept; the number of recent messages is not a setting. */
  predicate ValidLimits(limits: Limits) {
    && 1000 <= limits.trigger <= 1_000_000 && 500 <= limits.summaryMaximum <= 200_000
    && 10_000 <= limits.contextMaximum <= 2_000_000 && limits.recent == RECENT_MESSAGES
    && limits.summaryMaximum < limits.trigger < limits.contextMaximum
  }

  /** `list_messages(after_sequence=0, limit=10_000)`: the oldest ones come first. */
  function Loaded(room: Room): seq<Message> {
    if |room.messages| <= LOAD_LIMIT then room.messages else room.messages[..LOAD_LIMIT]
  }

  /** `get_latest_summary`: the one that reaches furthest. */
  function Latest(summaries: seq<Summary>): Option<Summary> {
    if summaries == [] then None
    else
      var last := summaries[|summaries| - 1];
      var before := Latest(summaries[..|summaries| - 1]);
      if before.Some? && before.value.through > last.through then before else Some(last)
  }

  /** A text is stripped; the message contract refuses it if nothing or too much is left. */
  function Appended(room: Room, author: Author, text: string): Room {
    if Valid(Strip(text)) then
      room.(messages := room.messages + [Message(room.id, |room.messages| + 1, author, Strip(text))])
    else room
  }

  /** The summary half of preparing a run. */
  function Rolled(room: Room, limits: Limits): Room {
    match NextSummary(room.id, Loaded(room), Latest(room.summaries), limits.trigger, limits.summaryMaximum)
    case Ok(Some(next)) => room.(summaries := room.summaries + [next])
    case _ => room
  }

  function Rolling(limits: Limits): Room -> Room {
    room => Rolled(room, limits)
  }

  /** One step, for any way to roll a summary; a refused instruction undoes its run's summary as well. */
  function Next(room: Room, step: Step, roll: Room -> Room): Room {
    match step
    case Append(author, text) => Appended(room, author, text)
    case StartRun(instruction) =>
      if Valid(Strip(instruction)) then Appended(roll(room), User, instruction) else room
  }

  function Run(room: Room, steps: seq<Step>, roll: Room -> Room): Room
    decreases |steps|
  {
    if steps == [] then room else Run(Next(room, steps[0], roll), steps[1..], roll)
  }

  /** What a text becomes when it is posted: a message of at most 100 000 characters under the next number, or nothing. */
  lemma {:induction false} PostingMeans(room: Room, author: Author, text: string, roll: Room -> Room)
    ensures var posted := Next(room, Append(author, text), roll);
            posted == if 1 <= |Strip(text)| <= 100_000
                      then room.(messages := room.messages
                                             + [Message(room.id, |room.messages| + 1, author, Strip(text))])
                      else room
  {
    StripTrims(text);
  }

  /** A run rolls the summary and then posts its instruction as the user's; a refused instruction leaves no trace. */
  lemma {:induction false} StartingMeans(room: Room, instruction: string, limits: Limits)
    ensures var started, rolled := Next(room, StartRun(instruction), Rolling(limits)), Rolled(room, limits);
            started == if 1 <= |Strip(instruction)| <= 100_000
                       then rolled.(messages := room.messages
                                                + [Message(room.id, |room.messages| + 1, User, Strip(instruction))])
                       else room
  {
    StripTrims(instruction);
  }

  /** Rolling adds what the summary builder makes of the first 10 000 messages, and keeps every other record. */
  lemma {:induction false} RollingMeans(room: Room, limits: Limits)
    ensures var loaded := room.messages[..if |room.messages| <= 10_000 then |room.messages| else 10_000];
            var next := NextSummary(room.id, loaded, Latest(room.summaries), limits.trigger, limits.summaryMaximum);
            Rolled(room, limits)
            == if next.Ok? && next.value.Some? then room.(summaries := room.summaries + [next.value.value]) else room
  {
    assert room.messages[..|room.messages|] == room.messages;
  }

  /** Messages of one room, valid and numbered from one. */
  ghost predicate NumberedFromOne(id: string, messages: seq<Message>) {
    && SameRoom(id, messages) && AllValid(messages)
    && forall i :: 0 <= i < |messages| ==> messages[i].sequence == i + 1
  }

  predicate Fits(summary: Summary, id: string, maximum: nat, loaded: nat) {
    && summary.room == id
    && 1 <= |summary.content| <= maximum && Trimmed(summary.content)
    && 1 <= summary.through <= loaded - 2
  }

  ghost predicate AllFit(summaries: seq<Summary>, id: string, maximum: nat, loaded: nat) {
    forall i :: 0 <= i < |summaries| ==> Fits(summaries[i], id, maximum, loaded)
  }

  ghost predicate Advancing(summaries: seq<Summary>) {
    forall i, j :: 0 <= i < j < |summaries| ==> summaries[i].through < summaries[j].through
  }

  ghost predicate Consistent(room: Room, limits: Limits) {
    && NumberedFromOne(room.id, room.messages)
    && AllFit(room.summaries, room.id, limits.summaryMaximum, |Loaded(room)|)
    && Advancing(room.summaries)
  }

  lemma {:induction false} LatestIsLast(summaries: seq<Summary>)
    requires Advancing(summaries)
    ensures Latest(summaries) == if summaries == [] then None else Some(summaries[|summaries| - 1])
  {
    if summaries != [] { LatestIsLast(summaries[..|summaries| - 1]); }
  }

  lemma {:induction false} LoadedNumbered(room: Room)
    requires NumberedFromOne(room.id, room.messages)
    ensures NumberedFromOne(room.id, Loaded(room)) && Numbered(Loaded(room)) && |Loaded(room)| <= |room.messages|
  {
  }

  /** Above any boundary inside, what is pending is the rest. */
  lemma {:induction false} PendingAbove(id: string, messages: seq<Message>, through: nat)
    requires NumberedFromOne(id, messages) && through <= |messages|
    ensures Pending(messages, through) == messages[through..]
  {
    PendingIs(messages, through, through);
  }

  lemma {:induction false} AdvancingAppend(summaries: seq<Summary>, next: Summary)
    requires Advancing(summaries) && Through(Latest(summaries)) < next.through
    ensures Advancing(summaries + [next]) && Latest(summaries + [next]) == Some(next)
  {
    LatestIsLast(summaries);
    var all := summaries + [next];
    forall i, j | 0 <= i < j < |all| ensures all[i].through < all[j].through {
      if j == |summaries| && i < |summaries| - 1 {
        assert summaries[i].through < summaries[|summaries| - 1].through;
      }
    }
    LatestIsLast(all);
  }

  lemma {:induction false} NewSummaryFits(id: string, messages: seq<Message>, current: Option<Summary>, trigger: nat,
                                          maximum: nat, next: Summary)
    requires NumberedFromOne(id, messages) && Numbered(messages) && maximum >= 1
    requires NextSummary(id, messages, current, trigger, maximum) == Ok(Some(next))
    ensures Through(current) < next.through == |messages| - 2 && Fits(next, id, maximum, |messages|)
  {
    SummaryAdvances(id, messages, current, trigger, maximum, next);
  }

  lemma {:induction false} FitsAppend(summaries: seq<Summary>, next: Summary, id: string, maximum: nat, loaded: nat)
    requires AllFit(summaries, id, maximum, loaded) && Fits(next, id, maximum, loaded)
    ensures AllFit(summaries + [next], id, maximum, loaded)
  {
  }

  /** What rolling adds: nothing, or a summary that reaches all but the last two loaded messages. */
  lemma {:induction false} RolledIs(room: Room, limits: Limits) returns (next: Option<Summary>)
    requires Consistent(room, limits) && limits.summaryMaximum >= 1
    ensures Rolled(room, limits) == (if next == None then room else room.(summaries := room.summaries + [next.value]))
    ensures next.Some? ==> Through(Latest(room.summaries)) < next.value.through == |Loaded(room)| - 2
    ensures next.Some? ==> Fits(next.value, room.id, limits.summaryMaximum, |Loaded(room)|)
  {
    var result := NextSummary(room.id, Loaded(room), Latest(room.summaries), limits.trigger, limits.summaryMaximum);
    next := None;
    if result.Ok? && result.value.Some? {
      next := result.value;
      LoadedNumbered(room);
      NewSummaryFits(room.id, Loaded(room), Latest(room.summaries), limits.trigger, limits.summaryMaximum, next.value);
    }
  }

  lemma {:induction false} SummaryKeeps(room: Room, limits: Limits, next: Summary)
    requires Consistent(room, limits) && Through(Latest(room.summaries)) < next.through
    requires Fits(next, room.id, limits.summaryMaximum, |Loaded(room)|)
    ensures Consistent(room.(summaries := room.summaries + [next]), limits)
    ensures Latest(room.summaries + [next]) == Some(next)
  {
    AdvancingAppend(room.summaries, next);
    FitsAppend(room.summaries, next, room.id, limits.summaryMaximum, |Loaded(room)|);
  }

  /**
   Rolling the summary keeps the room consistent; a new summary reaches strictly further
   and leaves exactly the last two loaded messages beyond it.
   */
  lemma {:induction false} RollKeeps(room: Room, limits: Limits)
    requires Consistent(room, limits) && limits.summaryMaximum >= 1
    ensures var rolled := Rolled(room, limits);
            && Consistent(rolled, limits) && rolled.id == room.id && rolled.messages == room.messages
            && room.summaries <= rolled.summaries
            && (rolled == room
                || Through(Latest(room.summaries)) < Through(Latest(rolled.summaries)) == |Loaded(room)| - 2)
  {
    var next := RolledIs(room, limits);
    if next.Some? { SummaryKeeps(room, limits, next.value); }
  }

  lemma {:induction false} AppendKeeps(room: Room, author: Author, text: string, limits: Limits)
    requires Consistent(room, limits)
    ensures Consistent(Appended(room, author, text), limits)
    ensures Appended(room, author, text).summaries == room.summaries
  {
  }

  lemma {:induction false} NextKeeps(room: Room, step: Step, limits: Limits)
    requires Consistent(room, limits) && limits.summaryMaximum >= 1
    ensures Consistent(Next(room, step, Rolling(limits)), limits)
    ensures room.summaries <= Next(room, step, Rolling(limits)).summaries
  {
    match step
    case Append(author, text) =>
      AppendKeeps(room, author, text, limits);
    case StartRun(instruction) =>
      RollKeeps(room, limits);
      AppendKeeps(Rolled(room, limits), User, instruction, limits);
  }

  /**
   Over every run messages stay numbered 1..n, and every summary in the room's history
   reaches strictly further than the one before it, within its size.
   */
  lemma {:induction false} RunConsistent(room: Room, steps: seq<Step>, limits: Limits)
    requires Consistent(room, limits) && limits.summaryMaximum >= 1
    ensures Consistent(Run(room, steps, Rolling(limits)), limits)
    ensures room.summaries <= Run(room, steps, Rolling(limits)).summaries
    decreases |steps|
  {
    if steps != [] {
      NextKeeps(room, steps[0], limits);
      RunConsistent(Next(room, steps[0], Rolling(limits)), steps[1..], limits);
    }
  }

  // ------------------------------------------------------- summary and window

  /** What the window is cut from, after the summary was rolled. */
  function Outstanding(room: Room): seq<Message> {
    Pending(Loaded(room), Through(Latest(room.summaries)))
  }

  function Budget(room: Room, limits: Limits): int {
    limits.contextMaximum - SummaryLength(Latest(room.summaries))
  }

  /** The messages the window holds in full. */
  ghost predicate Windowed(selected: seq<Message>, room: Room, limits: Limits) {
    Selects(selected, LastN(Outstanding(room), limits.recent), Budget(room, limits))
  }

  lemma {:induction false} BoundaryInside(room: Room, limits: Limits)
    requires Consistent(room, limits)
    ensures Through(Latest(room.summaries)) <= |Loaded(room)|
    ensures room.messages != [] ==> Through(Latest(room.summaries)) < |Loaded(room)|
    ensures SummaryLength(Latest(room.summaries)) <= limits.summaryMaximum
  {
    LatestIsLast(room.summaries);
    if room.summaries != [] {
      var last := room.summaries[|room.summaries| - 1];
      assert Fits(last, room.id, limits.summaryMaximum, |Loaded(room)|);
    }
  }

  lemma {:induction false} OutstandingIsRest(room: Room, limits: Limits)
    requires Consistent(room, limits)
    ensures Through(Latest(room.summaries)) <= |Loaded(room)|
    ensures Outstanding(room) == Loaded(room)[Through(Latest(room.summaries))..]
    ensures room.messages != [] ==> Outstanding(room) != []
  {
    BoundaryInside(room, limits);
    LoadedNumbered(room);
    PendingAbove(room.id, Loaded(room), Through(Latest(room.summaries)));
  }

  /** The end of the end of a sequence is its end. */
  lemma {:induction false} EndOfTail<T>(s: seq<T>, from: nat, limit: nat, end: seq<T>)
    requires from <= |s| && limit >= 1 && |end| <= |LastN(s[from..], limit)|
    requires end == LastN(s[from..], limit)[|LastN(s[from..], limit)| - |end|..]
    ensures |end| <= |s| - from && end == s[|s| - |end|..]
    ensures from < |s| ==> LastN(s[from..], limit) != []
  {
  }

  lemma {:induction false} SelectionIsTail(selected: seq<Message>, messages: seq<Message>, from: nat, limit: nat, budget: int)
    requires from <= |messages| && limit >= 1 && Selects(selected, LastN(messages[from..], limit), budget)
    ensures |selected| <= |messages| - from && selected == messages[|messages| - |selected|..]
    ensures from < |messages| ==> selected != []
  {
    EndOfTail(messages, from, limit, selected);
  }

  lemma {:induction false} WindowRest(room: Room, limits: Limits, selected: seq<Message>, from: nat)
    requires from <= |Loaded(room)| && Outstanding(room) == Loaded(room)[from..]
    requires limits.recent >= 1 && Windowed(selected, room, limits)
    ensures |selected| <= |Loaded(room)| - from && selected == Loaded(room)[|Loaded(room)| - |selected|..]
    ensures from < |Loaded(room)| ==> selected != []
  {
    SelectionIsTail(selected, Loaded(room), from, limits.recent, Budget(room, limits));
  }

  /** The window is a contiguous block at the end of what is above the boundary. */
  lemma {:induction false} WindowIsTail(room: Room, limits: Limits, selected: seq<Message>)
    requires Consistent(room, limits) && limits.recent >= 1 && Windowed(selected, room, limits)
    ensures |selected| <= |Loaded(room)| - Through(Latest(room.summaries))
    ensures selected == Loaded(room)[|Loaded(room)| - |selected|..]
    ensures room.messages != [] ==> selected != []
  {
    OutstandingIsRest(room, limits);
    BoundaryInside(room, limits);
    WindowRest(room, limits, selected, Through(Latest(room.summaries)));
  }

  /** The end of numbered messages, counted from any boundary before it. */
  lemma {:induction false} TailNumbers(id: string, messages: seq<Message>, from: nat, tail: seq<Message>)
    requires NumberedFromOne(id, messages) && from <= |messages| - |tail| && tail == messages[|messages| - |tail|..]
    ensures forall i :: 0 <= i < |tail| ==> from < tail[i].sequence == |messages| - |tail| + i + 1
  {
  }

  lemma {:induction false} WindowNumbers(room: Room, limits: Limits, selected: seq<Message>)
    requires Consistent(room, limits) && limits.recent >= 1 && Windowed(selected, room, limits)
    ensures forall i :: 0 <= i < |selected| ==>
              Through(Latest(room.summaries)) < selected[i].sequence == |Loaded(room)| - |selected| + i + 1
    ensures room.messages != [] ==> selected != []
  {
    WindowIsTail(room, limits, selected);
    LoadedNumbered(room);
    BoundaryInside(room, limits);
    TailNumbers(room.id, Loaded(room), Through(Latest(room.summaries)), selected);
  }

  lemma RenderReaches(summary: Option<Summary>, selected: seq<Message>)
    requires selected != []
    ensures Render(summary, selected).through == selected[|selected| - 1].sequence
  {
  }

  /**
   Every message is on one side of the boundary only: all the window holds is numbered above
   the summary, without a gap, up to the last loaded message.
   */
  lemma {:induction false} WindowAboveSummary(room: Room, limits: Limits, selected: seq<Message>)
    requires Consistent(room, limits) && limits.recent >= 1 && Windowed(selected, room, limits)
    ensures forall i :: 0 <= i < |selected| ==>
              Through(Latest(room.summaries)) < selected[i].sequence == |Loaded(room)| - |selected| + i + 1
    ensures room.messages != [] ==> Render(Latest(room.summaries), selected).through == |Loaded(room)|
  {
    WindowNumbers(room, limits, selected);
    if selected != [] { RenderReaches(Latest(room.summaries), selected); }
  }

  // ----------------------------------------------------------- rooms that come about

  function Opened(id: string): Room {
    Room(id, [], [])
  }

  /** The room a starting run cuts its window from: the steps are done and the summary is rolled. */
  function Prepared(id: string, steps: seq<Step>, limits: Limits): Room {
    Rolled(Run(Opened(id), steps, Rolling(limits)), limits)
  }

  lemma {:induction false} PreparedConsistent(id: string, steps: seq<Step>, limits: Limits)
    requires limits.summaryMaximum >= 1
    ensures Consistent(Prepared(id, steps, limits), limits)
    ensures Prepared(id, steps, limits).messages == Run(Opened(id), steps, Rolling(limits)).messages
  {
    RunConsistent(Opened(id), steps, limits);
    RollKeeps(Run(Opened(id), steps, Rolling(limits)), limits);
  }

  function Appends(texts: seq<string>): seq<Step> {
    seq(|texts|, i requires 0 <= i < |texts| => Append(User, texts[i]))
  }

  function Posted(id: string, after: nat, texts: seq<string>): seq<Message> {
    seq(|texts|, i requires 0 <= i < |texts| => Message(id, after + i + 1, User, texts[i]))
  }

  function Grown(room: Room, texts: seq<string>): Room {
    room.(messages := room.messages + Posted(room.id, |room.messages|, texts))
  }

  ghost predicate AllPostable(texts: seq<string>) {
    forall i :: 0 <= i < |texts| ==> Valid(texts[i])
  }

  lemma {:induction false} PostedFirst(id: string, after: nat, texts: seq<string>)
    requires texts != []
    ensures Posted(id, after, texts) == [Message(id, after + 1, User, texts[0])] + Posted(id, after + 1, texts[1..])
  {
  }

  lemma {:induction false} RunAppends(room: Room, texts: seq<string>, roll: Room -> Room)
    requires AllPostable(texts)
    ensures Run(room, Appends(texts), roll) == Grown(room, texts)
    decreases |texts|
  {
    if texts == [] {
      assert Grown(room, texts).messages == room.messages;
    } else {
      var rest := texts[1..];
      StripKeeps(texts[0]);
      var next := Appended(room, User, texts[0]);
      assert Appends(texts)[1..] == Appends(rest);
      RunAppends(next, rest, roll);
      PostedFirst(room.id, |room.messages|, texts);
      assert Grown(next, rest).messages == Grown(room, texts).messages;
    }
  }

  lemma {:induction false} RunConcat(room: Room, first: seq<Step>, second: seq<Step>, roll: Room -> Room)
    ensures Run(room, first + second, roll) == Run(Run(room, first, roll), second, roll)
    decreases |first|
  {
    if first == [] {
      assert first + second == second;
    } else {
      assert (first + second)[1..] == first[1..] + second;
      RunConcat(Next(room, first[0], roll), first[1..], second, roll);
    }
  }

  lemma {:induction false} GrownFromEmpty(texts: seq<string>)
    ensures Grown(Opened("room"), texts) == Room("room", Posted("room", 0, texts), [])
  {
    assert [] + Posted("room", 0, texts) == Posted("room", 0, texts);
  }

  lemma {:induction false} FirstPosted(texts: seq<string>, roll: Room -> Room)
    requires AllPostable(texts)
    ensures Run(Opened("room"), Appends(texts), roll) == Room("room", Posted("room", 0, texts), [])
  {
    RunAppends(Opened("room"), texts, roll);
    GrownFromEmpty(texts);
  }

  function Filler(n: nat): (s: string)
    ensures |s| == n && forall i :: 0 <= i < n ==> s[i] == 'x'
  {
    seq(n, i => 'x')
  }

  lemma FillerValid(n: nat)
    requires 1 <= n <= MESSAGE_MAXIMUM
    ensures Valid(Filler(n))
  {
  }

  function Singles(n: nat): (texts: seq<string>)
    ensures |texts| == n
  {
    seq(n, i => Filler(1))
  }

  /** `n` messages of one character each, posted into an empty room. */
  lemma {:induction false} SinglesPosted(n: nat, roll: Room -> Room)
    ensures Run(Opened("room"), Appends(Singles(n)), roll) == Room("room", Posted("room", 0, Singles(n)), [])
  {
    FillerValid(1);
    FirstPosted(Singles(n), roll);
  }

  // ------------------------------------------------------------- the newest message

  /** The window reaches the newest message of the room exactly while the room fits one load. */
  lemma {:induction false} ReachesNewestIff(room: Room, limits: Limits, selected: seq<Message>)
    requires Consistent(room, limits) && limits.recent >= 1 && Windowed(selected, room, limits)
    requires room.messages != []
    ensures Render(Latest(room.summaries), selected).through == |room.messages| <==> |room.messages| <= LOAD_LIMIT
  {
    WindowAboveSummary(room, limits, selected);
  }

  /** Enough messages posted one after the other make the window stop short of the newest. */
  lemma {:induction false} NewestMissed(limits: Limits, selected: seq<Message>)
    requires limits.summaryMaximum >= 1 && limits.recent >= 1
    requires Windowed(selected, Prepared("room", Appends(Singles(LOAD_LIMIT + 1)), limits), limits)
    ensures var room := Prepared("room", Appends(Singles(LOAD_LIMIT + 1)), limits);
            |room.messages| == LOAD_LIMIT + 1 && Render(Latest(room.summaries), selected).through == LOAD_LIMIT
  {
    SinglesPosted(LOAD_LIMIT + 1, Rolling(limits));
    PreparedConsistent("room", Appends(Singles(LOAD_LIMIT + 1)), limits);
    WindowAboveSummary(Prepared("room", Appends(Singles(LOAD_LIMIT + 1)), limits), limits, selected);
  }

  // --------------------------------------------------------------- nothing dropped

  /**
   In any room, reached or not, the window drops nothing exactly when no more messages are
   outstanding than it looks at, and they fit the budget the summary leaves or are only one.
   */
  lemma {:induction false} DropsNothingHereIff(room: Room, limits: Limits, selected: seq<Message>)
    requires limits.recent >= 1 && Windowed(selected, room, limits)
    ensures selected == Outstanding(room)
            <==> && |Outstanding(room)| <= limits.recent
                 && (Total(Outstanding(room)) <= Budget(room, limits) || |Outstanding(room)| <= 1)
  {
    DropsNothingIff(selected, Outstanding(room), limits.recent, Budget(room, limits));
  }

  lemma {:induction false} SinglesTotal(messages: seq<Message>, k: nat)
    requires k <= |messages| && forall i :: 0 <= i < |messages| ==> |messages[i].content| == 1
    ensures TailTotal(messages, k) == k
  {
    if k > 0 { SinglesTotal(messages, k - 1); }
  }

  lemma {:induction false} QuietStays(room: Room, limits: Limits)
    requires Total(Outstanding(room)) < limits.trigger
    ensures Rolled(room, limits) == room
  {
  }

  lemma {:induction false} SinglesOutstanding(room: Room, n: nat)
    requires room == Room("room", Posted("room", 0, Singles(n)), []) && n <= LOAD_LIMIT
    ensures |Outstanding(room)| == Total(Outstanding(room)) == n
  {
    PendingIs(room.messages, 0, 0);
    assert room.messages[0..] == room.messages;
    SinglesTotal(room.messages, n);
  }

  /** With any settings there is a room whose outstanding messages are too many: 65 short ones, no summary. */
  lemma {:induction false} ManyDropped(limits: Limits, selected: seq<Message>)
    requires ValidLimits(limits)
    requires Windowed(selected, Prepared("room", Appends(Singles(RECENT_MESSAGES + 1)), limits), limits)
    ensures var room := Prepared("room", Appends(Singles(RECENT_MESSAGES + 1)), limits);
            && |Outstanding(room)| == RECENT_MESSAGES + 1 && Total(Outstanding(room)) < limits.trigger
            && room.summaries == [] && selected != Outstanding(room)
  {
    var n := RECENT_MESSAGES + 1;
    var room := Room("room", Posted("room", 0, Singles(n)), []);
    SinglesPosted(n, Rolling(limits));
    SinglesOutstanding(room, n);
    QuietStays(room, limits);
    DropsNothingHereIff(Prepared("room", Appends(Singles(n)), limits), limits, selected);
  }

  /** The summary builder saw too little text to act, and there are no more messages than the window looks at. */
  predicate Quiet(room: Room, limits: Limits) {
    Total(Outstanding(room)) < limits.trigger && |Outstanding(room)| <= limits.recent
  }

  /** Whatever the settings accept the two builders accept, and in any room that comes about a summary leaves a budget. */
  lemma {:induction false} SettingsSuffice(id: string, steps: seq<Step>, limits: Limits)
    requires ValidLimits(limits)
    ensures limits.trigger >= 1000 && limits.summaryMaximum >= 500 && limits.contextMaximum >= 10_000 && limits.recent == 64
    ensures limits.trigger <= 1_000_000 && limits.summaryMaximum <= 200_000 && limits.contextMaximum <= 2_000_000
    ensures Budget(Prepared(id, steps, limits), limits) >= 2
  {
    PreparedConsistent(id, steps, limits);
    BoundaryInside(Prepared(id, steps, limits), limits);
  }

  /** In no room that comes about and is quiet does the window drop what the summary builder left. */
  ghost predicate Lossless(limits: Limits) {
    forall id: string, steps: seq<Step>, selected: seq<Message> ::
      var room := Prepared(id, steps, limits);
      Quiet(room, limits) && Windowed(selected, room, limits) ==> selected == Outstanding(room)
  }

  lemma {:induction false} MarginSuffices(limits: Limits, room: Room, selected: seq<Message>)
    requires limits.recent >= 1 && limits.summaryMaximum + limits.trigger <= limits.contextMaximum + 1
    requires Consistent(room, limits) && Quiet(room, limits) && Windowed(selected, room, limits)
    ensures selected == Outstanding(room)
  {
    BoundaryInside(room, limits);
    DropsNothingIff(selected, Outstanding(room), limits.recent, Budget(room, limits));
  }

  /** The end of a text whose last two messages are plain fills a summary. */
  lemma {:induction false} TailFills(start: string, c: nat, between: string, maximum: nat)
    requires c >= 1 && c + |between| < maximum <= 2 * c + |between|
    ensures var tail := LastN(start + Filler(c) + between + Filler(c), maximum); |tail| == maximum && Trimmed(tail)
  {
    var text := start + Filler(c) + between + Filler(c);
    var tail := LastN(text, maximum);
    assert tail[0] == text[|text| - maximum] == Filler(c)[2 * c + |between| - maximum];
    assert tail[maximum - 1] == text[|text| - 1] == Filler(c)[c - 1];
  }

  lemma TwoDigits(n: nat)
    requires 10 <= n < 100
    ensures |Decimal(n)| == 2
  {
    assert |Decimal(n / 10)| == 1;
  }

  /** What a summary joins, the last two messages set apart. */
  lemma {:induction false} LastTwoLines(messages: seq<Message>) returns (start: string)
    requires |messages| >= 2
    ensures JoinLines(messages) == start + Line(messages[|messages| - 2]) + "\n" + Line(messages[|messages| - 1])
  {
    var n := |messages|;
    var init := messages[..n - 1];
    start := if n == 2 then "" else JoinLines(init[..n - 2]) + "\n";
    assert JoinLines(init) == start + Line(init[n - 2]);
  }

  lemma {:induction false} RegroupLines(start: string, a: string, c: string, b: string)
    ensures start + (a + c) + "\n" + (b + c) == (start + a) + c + ("\n" + b) + c
  {
  }

  /** Two plain messages at the end, each about half the maximum, make a summary of full length. */
  lemma {:induction false} FullSummary(messages: seq<Message>, c: nat, maximum: nat)
    requires |messages| >= 2 && c + 11 < maximum <= 2 * c
    requires messages[|messages| - 1].author == User && 10 <= messages[|messages| - 1].sequence < 100
    requires messages[|messages| - 2].content == messages[|messages| - 1].content == Filler(c)
    ensures |SummaryContent(None, messages, maximum)| == maximum
  {
    var last, other := messages[|messages| - 1], messages[|messages| - 2];
    var a := "[" + Decimal(other.sequence) + " " + AuthorName(other.author) + "] ";
    var b := "[" + Decimal(last.sequence) + " " + AuthorName(User) + "] ";
    var start := LastTwoLines(messages);
    TwoDigits(last.sequence);
    RegroupLines(start, a, Filler(c), b);
    TailFills(start + a, c, "\n" + b, maximum);
    assert SummaryPrefix(None) + JoinLines(messages) == JoinLines(messages);
    StripKeeps(LastN(JoinLines(messages), maximum));
  }

  /** Ten messages of the greatest length, two for the summary's end, and two that stay. */
  function Opening(c: nat): (texts: seq<string>)
    ensures |texts| == 14
  {
    seq(10, i => Filler(MESSAGE_MAXIMUM)) + [Filler(c), Filler(c), Filler(1), Filler(1)]
  }

  lemma {:induction false} OpeningPostable(c: nat)
    requires 1 <= c <= MESSAGE_MAXIMUM
    ensures AllPostable(Opening(c))
  {
    FillerValid(c);
    FillerValid(1);
    FillerValid(MESSAGE_MAXIMUM);
  }

  /** Messages of `n` characters together. */
  function Split(n: nat): (texts: seq<string>)
    ensures |texts| <= n / MESSAGE_MAXIMUM + 1
  {
    if n == 0 then []
    else if n <= MESSAGE_MAXIMUM then [Filler(n)]
    else [Filler(MESSAGE_MAXIMUM)] + Split(n - MESSAGE_MAXIMUM)
  }

  lemma {:induction false} SplitPostable(n: nat)
    ensures AllPostable(Split(n))
  {
    if n > MESSAGE_MAXIMUM {
      SplitPostable(n - MESSAGE_MAXIMUM);
      FillerValid(MESSAGE_MAXIMUM);
    } else if n > 0 {
      FillerValid(n);
    }
  }

  lemma OneTotal(message: Message)
    ensures Total([message]) == |message.content|
  {
    assert TailTotal([message], 1) == |message.content| + TailTotal([message], 0);
  }

  lemma {:induction false} FirstTotal(first: Message, rest: seq<Message>)
    ensures Total([first] + rest) == |first.content| + Total(rest)
  {
    TotalConcat([first], rest);
    OneTotal(first);
  }

  lemma {:induction false} SplitTotal(id: string, after: nat, n: nat)
    ensures Total(Posted(id, after, Split(n))) == n
    decreases n
  {
    if n > 0 {
      var texts := Split(n);
      PostedFirst(id, after, texts);
      FirstTotal(Message(id, after + 1, User, texts[0]), Posted(id, after + 1, texts[1..]));
      if n > MESSAGE_MAXIMUM {
        SplitTotal(id, after + 1, n - MESSAGE_MAXIMUM);
        assert texts[1..] == Split(n - MESSAGE_MAXIMUM);
      } else {
        assert Posted(id, after + 1, texts[1..]) == [];
      }
    }
  }

  lemma {:induction false} LongTotal(messages: seq<Message>, k: nat)
    requires k <= |messages| && forall i :: 0 <= i < |messages| ==> |messages[i].content| == MESSAGE_MAXIMUM
    ensures TailTotal(messages, k) == k * MESSAGE_MAXIMUM
  {
    if k > 0 { LongTotal(messages, k - 1); }
  }

  lemma {:induction false} OpeningTotal(id: string, c: nat)
    ensures Total(Posted(id, 0, Opening(c))) >= 1_000_000
  {
    var all := Posted(id, 0, Opening(c));
    LongTotal(all[..10], 10);
    TotalConcat(all[..10], all[10..]);
    assert all == all[..10] + all[10..];
  }

  /** Before the first run everything is pending, and all but the last two messages are summarized. */
  lemma {:induction false} OpeningSummarized(messages: seq<Message>, c: nat, trigger: nat)
    requires messages == Posted("room", 0, Opening(c)) && trigger <= 1_000_000
    ensures Summarized(messages, 0, trigger) == messages[..12]
  {
    PendingIs(messages, 0, 0);
    assert messages[0..] == messages;
    OpeningTotal("room", c);
  }

  lemma {:induction false} OpeningFills(messages: seq<Message>, c: nat, maximum: nat)
    requires messages == Posted("room", 0, Opening(c)) && c + 11 < maximum <= 2 * c
    ensures |SummaryContent(None, messages[..12], maximum)| == maximum
  {
    var summarized := messages[..12];
    assert summarized[10].content == Filler(c) && summarized[11].content == Filler(c);
    FullSummary(summarized, c, maximum);
  }

  lemma {:induction false} FirstSummary(messages: seq<Message>, trigger: nat, maximum: nat, k: nat)
    requires SameRoom("room", messages) && 0 < k <= |messages| && Summarized(messages, 0, trigger) == messages[..k]
    ensures NextSummary("room", messages, None, trigger, maximum)
            == Ok(Some(Summary("room", messages[k - 1].sequence, SummaryContent(None, messages[..k], maximum))))
  {
  }

  /** The room after the opening, at the moment the first run rolls its summary. */
  lemma {:induction false} OpeningRolls(room: Room, c: nat, limits: Limits) returns (content: string)
    requires limits.trigger <= 1_000_000 && c + 11 < limits.summaryMaximum <= 2 * c
    requires room == Room("room", Posted("room", 0, Opening(c)), [])
    ensures Rolled(room, limits) == room.(summaries := [Summary("room", 12, content)])
    ensures |content| == limits.summaryMaximum
  {
    OpeningSummarized(room.messages, c, limits.trigger);
    OpeningFills(room.messages, c, limits.summaryMaximum);
    FirstSummary(room.messages, limits.trigger, limits.summaryMaximum, 12);
    content := SummaryContent(None, room.messages[..12], limits.summaryMaximum);
    assert [] + [Summary("room", 12, content)] == [Summary("room", 12, content)];
  }

  /** The steps to a crowded room: messages, a run, and more messages. */
  function CrowdingSteps(first: seq<string>, second: seq<string>): seq<Step> {
    Appends(first) + ([StartRun(Filler(1))] + Appends(second))
  }

  lemma {:induction false} StartsOnce(room: Room, roll: Room -> Room)
    requires roll(room).id == room.id && roll(room).messages == room.messages
    ensures Run(room, [StartRun(Filler(1))], roll)
            == roll(room).(messages := room.messages
                                                 + [Message(room.id, |room.messages| + 1, User, Filler(1))])
  {
    FillerValid(1);
    StripKeeps(Filler(1));
    var start := [StartRun(Filler(1))];
    assert start[1..] == [] && Run(room, start, roll) == Run(Next(room, start[0], roll), start[1..], roll);
  }

  lemma {:induction false} RunInParts(start: Room, a: seq<Step>, b: seq<Step>, c: seq<Step>, roll: Room -> Room, one: Room,
                                      two: Room, three: Room)
    requires Run(start, a, roll) == one && Run(one, b, roll) == two && Run(two, c, roll) == three
    ensures Run(start, a + (b + c), roll) == three
  {
    RunConcat(one, b, c, roll);
    RunConcat(start, a, b + c, roll);
  }

  lemma {:induction false} StartsWith(posted: Room, summary: Summary, roll: Room -> Room, started: Room)
    requires roll(posted) == posted.(summaries := [summary])
    requires started == posted.(messages := posted.messages
                                            + [Message(posted.id, |posted.messages| + 1, User, Filler(1))],
                                summaries := [summary])
    ensures Run(posted, [StartRun(Filler(1))], roll) == started
  {
    StartsOnce(posted, roll);
  }

  /** A room is posted to, a run rolls its summary, and it is posted to again. */
  lemma {:induction false} PostRollPost(first: seq<string>, second: seq<string>, roll: Room -> Room, summary: Summary)
    returns (started: Room)
    requires AllPostable(first) && AllPostable(second)
    requires var posted := Room("room", Posted("room", 0, first), []);
             roll(posted) == posted.(summaries := [summary])
    ensures started == Room("room", Posted("room", 0, first) + [Message("room", |first| + 1, User, Filler(1))], [summary])
    ensures Run(Opened("room"), CrowdingSteps(first, second), roll) == Grown(started, second)
  {
    var posted := Room("room", Posted("room", 0, first), []);
    started := Room("room", Posted("room", 0, first) + [Message("room", |first| + 1, User, Filler(1))], [summary]);
    FirstPosted(first, roll);
    StartsWith(posted, summary, roll, started);
    RunAppends(started, second, roll);
    RunInParts(Opened("room"), Appends(first), [StartRun(Filler(1))], Appends(second), roll, posted, started,
               Grown(started, second));
  }

  lemma {:induction false} ThreeTotal(messages: seq<Message>)
    requires |messages| == 3 && forall i :: 0 <= i < 3 ==> |messages[i].content| == 1
    ensures Total(messages) == 3
  {
    SinglesTotal(messages, 3);
  }

  /** What is outstanding in a room like that one. */
  lemma {:induction false} CrowdedOutstanding(first: seq<string>, second: seq<string>, messages: seq<Message>)
    requires |first| == 14 && first[12] == first[13] == Filler(1)
    requires messages == Posted("room", 0, first) + [Message("room", 15, User, Filler(1))] + Posted("room", 15, second)
    ensures |Pending(messages, 12)| == 3 + |second|
    ensures Total(Pending(messages, 12)) == 3 + Total(Posted("room", 15, second))
  {
    var tail := Posted("room", 15, second);
    var kept := [Message("room", 13, User, Filler(1)), Message("room", 14, User, Filler(1)),
                 Message("room", 15, User, Filler(1))];
    PendingIs(messages, 12, 12);
    assert messages[12..] == kept + tail;
    TotalConcat(kept, tail);
    ThreeTotal(kept);
  }

  lemma {:induction false} CrowdedHere(room: Room, first: seq<string>, second: seq<string>, summary: Summary)
    requires |first| == 14 && first[12] == first[13] == Filler(1) && |second| <= 11 && summary.through == 12
    requires room == Grown(Room("room", Posted("room", 0, first) + [Message("room", 15, User, Filler(1))], [summary]),
                           second)
    ensures |Outstanding(room)| == 3 + |second|
    ensures Total(Outstanding(room)) == 3 + Total(Posted("room", 15, second))
  {
    CrowdedOutstanding(first, second, room.messages);
    OneSummary(summary);
  }

  lemma OneSummary(summary: Summary)
    ensures Latest([summary]) == Some(summary)
  {
    assert [summary][..0] == [];
  }

  /** For any settings: a full summary, and messages outstanding up to just below the trigger. */
  lemma {:induction false} CrowdedRoom(limits: Limits) returns (steps: seq<Step>, room: Room)
    requires ValidLimits(limits)
    ensures room == Prepared("room", steps, limits) && Quiet(room, limits)
    ensures Total(Outstanding(room)) == limits.trigger - 1 && |Outstanding(room)| >= 2
    ensures Budget(room, limits) == limits.contextMaximum - limits.summaryMaximum
  {
    var content, first := CrowdingFirst(limits);
    var second := CrowdingSecond(limits);
    var summary := Summary("room", 12, content);
    var started := PostRollPost(first, second, Rolling(limits), summary);
    steps := CrowdingSteps(first, second);
    room := Grown(started, second);
    CrowdedHere(room, first, second, summary);
    OneSummary(summary);
    QuietStays(room, limits);
  }

  /** What is posted before the run, with the summary it then gets. */
  lemma {:induction false} CrowdingFirst(limits: Limits) returns (content: string, first: seq<string>)
    requires ValidLimits(limits)
    ensures AllPostable(first) && |first| == 14 && first[12] == first[13] == Filler(1)
    ensures |content| == limits.summaryMaximum
    ensures var posted := Room("room", Posted("room", 0, first), []);
            Rolled(posted, limits) == posted.(summaries := [Summary("room", 12, content)])
  {
    var c := (limits.summaryMaximum + 1) / 2;
    first := Opening(c);
    OpeningPostable(c);
    content := OpeningRolls(Room("room", Posted("room", 0, first), []), c, limits);
  }

  /** What is posted after it. */
  lemma {:induction false} CrowdingSecond(limits: Limits) returns (second: seq<string>)
    requires ValidLimits(limits)
    ensures AllPostable(second) && |second| <= 11 && Total(Posted("room", 15, second)) == limits.trigger - 4
  {
    second := Split(limits.trigger - 4);
    SplitPostable(limits.trigger - 4);
    SplitTotal("room", 15, limits.trigger - 4);
  }

  lemma {:induction false} CrowdedRoomDrops(limits: Limits)
    requires ValidLimits(limits) && limits.summaryMaximum + limits.trigger > limits.contextMaximum + 1
    ensures !Lossless(limits)
  {
    var steps, room := CrowdedRoom(limits);
    var pending := Outstanding(room);
    var selected := SelectionExists(LastN(pending, limits.recent), Budget(room, limits));
    assert Windowed(selected, room, limits);
    DropsNothingIff(selected, pending, limits.recent, Budget(room, limits));
    assert selected != pending && room == Prepared("room", steps, limits);
  }

  /**
   With at most 64 messages outstanding, the window drops nothing the summary builder chose to
   leave, in any room that comes about, exactly when a full summary and a text just below the
   trigger fit the context together. The settings validator only asks each limit to be below
   the next one, which is not enough.
   */
  lemma {:induction false} LosslessIff(limits: Limits)
    requires ValidLimits(limits)
    ensures Lossless(limits) <==> limits.summaryMaximum + limits.trigger <= limits.contextMaximum + 1
  {
    if limits.summaryMaximum + limits.trigger <= limits.contextMaximum + 1 {
      forall id: string, steps: seq<Step>, selected: seq<Message>
        | Quiet(Prepared(id, steps, limits), limits) && Windowed(selected, Prepared(id, steps, limits), limits)
        ensures selected == Outstanding(Prepared(id, steps, limits))
      {
        PreparedConsistent(id, steps, limits);
        MarginSuffices(limits, Prepared(id, steps, limits), selected);
      }
    } else {
      CrowdedRoomDrops(limits);
    }
  }
}
