/**
 `entriesOf`: what a thread draws for its items. Tool calls that follow one
 another in one turn are drawn as one entry; any other item is an entry of its
 own or draws nothing.
 */
module ThreadEntries {
  import opened Wrappers

  /** A call, by the item it came from and what it is drawn from. */
  datatype Call = Call(id: string, content: string)

  /** The status of a parsed notice's ending; a retried one is not an ending. */
  datatype Notice = Notice(taskId: string, ending: string, detail: Option<string>)

  datatype Answer = Answer(taskId: string, worker: string)

  /**
   An item, with what the readers this model leaves abstract make of it:
   its call's content, the task it filed, whether it is a task's brief, the notice it
   parses as, and the delegate's answer it carries.
   */
  datatype Item = Item(
    id: string, requestId: string, kind: string, role: string, status: string, text: string,
    call: string, filed: Option<string>, brief: bool, notice: Option<Notice>, answer: Option<Answer>)

  /** An entry; a tool entry stands for whatever its calls are drawn as. */
  datatype Entry =
    | Thread(id: string, requestId: string, taskId: string)
    | Tool(id: string, requestId: string, calls: seq<Call>)
    | FailedTurn(id: string, requestId: string, retryable: bool)
    | Brief(id: string, requestId: string, text: string)
    | User(id: string, requestId: string, text: string, sentToThread: bool)
    | Result(id: string, requestId: string, taskId: string, status: string, summary: string, duringTurn: bool)
    | Assistant(id: string, requestId: string, text: string, incomplete: bool)

  // ----- Classifying one item -----

  /** What the whole thread says of its turns. */
  datatype Turns = Turns(user: set<string>, filing: set<string>, failed: set<string>)

  function FiledTask(item: Item): Option<string> {
    if item.kind == "tool_output" then item.filed else None
  }

  function TurnsOf(items: seq<Item>): Turns {
    Turns(set item | item in items && item.kind == "message" && item.role == "user" && !item.brief :: item.requestId,
          set item | item in items && FiledTask(item).Some? :: item.requestId,
          set item | item in items && item.kind == "error" :: item.requestId)
  }

  /** What one item draws: nothing, one call of a tool entry, or an entry of its own. */
  datatype Piece = Draws(entry: Entry) | Calls(requestId: string, call: Call) | Nothing

  function Classify(item: Item, threads: bool, turns: Turns): Piece {
    var request := item.requestId;
    if threads && FiledTask(item).Some? then Draws(Thread(item.id, request, FiledTask(item).value))
    else if item.kind == "tool_output" then Calls(request, Call(item.id, item.call))
    else if item.kind == "error" then Draws(FailedTurn(item.id, request, false))
    else if item.role == "user" && item.brief then Draws(Brief(item.id, request, item.text))
    else if item.role == "user" then Draws(User(item.id, request, item.text, threads && request in turns.filing))
    else if item.notice.Some? && item.notice.value.ending != "retried" then
      var n := item.notice.value;
      var summary := if n.detail.Some? then n.detail.value else item.text;
      Draws(Result(item.id, request, n.taskId, n.ending, summary, request in turns.user))
    else if item.answer.Some? && |item.text| > 0 then
      Draws(Result(item.id, request, item.answer.value.taskId, "completed", item.text, request in turns.user))
    else if |item.text| > 0 then
      Draws(Assistant(item.id, request, item.text, request in turns.failed && item.status != "completed"))
    else Nothing
  }

  /** What the items draw, in order, each drawing exactly one thing or nothing. */
  function Drawn(items: seq<Item>, threads: bool, turns: Turns): seq<Piece> {
    if items == [] then []
    else
      AndDrawn(Drawn(items[..|items| - 1], threads, turns), Classify(items[|items| - 1], threads, turns))
  }

  function AndDrawn(pieces: seq<Piece>, piece: Piece): seq<Piece> {
    if piece == Nothing then pieces else pieces + [piece]
  }

  // ----- What grouping means -----

  /** An entry is a line of its own or is made of calls. */
  datatype Part = Line(entry: Entry) | OneCall(requestId: string, call: Call)

  function PartOf(piece: Piece): Part
    requires piece != Nothing
  {
    if piece.Draws? then Line(piece.entry) else OneCall(piece.requestId, piece.call)
  }

  function CallParts(requestId: string, calls: seq<Call>): seq<Part> {
    seq(|calls|, i requires 0 <= i < |calls| => OneCall(requestId, calls[i]))
  }

  /** An entry as the parts it is made of. */
  function Parts(e: Entry): seq<Part> {
    if e.Tool? then CallParts(e.requestId, e.calls) else [Line(e)]
  }

  /** A list of entries, taken apart. */
  function Expand(es: seq<Entry>): seq<Part> {
    if es == [] then [] else Expand(es[..|es| - 1]) + Parts(es[|es| - 1])
  }

  function PartsOf(pieces: seq<Piece>): seq<Part>
    requires Nothing !in pieces
  {
    seq(|pieces|, i requires 0 <= i < |pieces| => PartOf(pieces[i]))
  }

  predicate SameRun(a: Entry, b: Entry) {
    a.Tool? && b.Tool? && a.requestId == b.requestId
  }

  /** A tool entry has a call and goes by its first call's item. */
  predicate WellMade(e: Entry) {
    e.Tool? ==> e.calls != [] && e.id == e.calls[0].id
  }

  /** No two tool entries of one turn stand side by side. */
  ghost predicate Maximal(es: seq<Entry>) {
    && (forall e :: e in es ==> WellMade(e))
    && (forall i, j :: 0 <= i < j < |es| && j == i + 1 ==> !SameRun(es[i], es[j]))
  }

  /** `es` is what the pieces group into: their parts in order, each once, in maximal runs. */
  ghost predicate Groups(pieces: seq<Piece>, es: seq<Entry>) {
    Nothing !in pieces && Maximal(es) && Expand(es) == PartsOf(pieces)
  }

  lemma ExpandAppend(es: seq<Entry>, e: Entry)
    ensures Expand(es + [e]) == Expand(es) + Parts(e)
  {
    assert (es + [e])[..|es|] == es;
  }

  /** A piece that starts an entry of its own. */
  lemma StartsEntry(pieces: seq<Piece>, es: seq<Entry>, piece: Piece, e: Entry)
    requires Groups(pieces, es) && piece != Nothing && WellMade(e) && Parts(e) == [PartOf(piece)]
    requires es != [] ==> !SameRun(es[|es| - 1], e)
    ensures Groups(pieces + [piece], es + [e])
  {
    ExpandAppend(es, e);
    assert PartsOf(pieces + [piece]) == PartsOf(pieces) + [PartOf(piece)];
  }

  lemma LongerRunMaximal(es: seq<Entry>, joined: Entry)
    requires Maximal(es) && es != [] && es[|es| - 1].Tool? && joined.Tool? && joined.calls != []
    requires WellMade(es[|es| - 1])
    requires joined.id == es[|es| - 1].id && joined.requestId == es[|es| - 1].requestId
    requires joined.calls[0] == es[|es| - 1].calls[0]
    ensures Maximal(es[..|es| - 1] + [joined])
  {
    var n := |es| - 1;
    assert WellMade(es[n]);
    forall i, j | 0 <= i < j < n + 1 && j == i + 1
      ensures !SameRun((es[..n] + [joined])[i], (es[..n] + [joined])[j])
    {
      assert !SameRun(es[i], es[j]);
    }
  }

  /** A call that joins the run before it. */
  lemma JoinsRun(pieces: seq<Piece>, es: seq<Entry>, call: Call)
    requires Groups(pieces, es) && es != [] && es[|es| - 1].Tool?
    ensures var last := es[|es| - 1];
      Groups(pieces + [Calls(last.requestId, call)], es[..|es| - 1] + [last.(calls := last.calls + [call])])
  {
    var n := |es| - 1;
    var last := es[n];
    var joined := last.(calls := last.calls + [call]);
    assert es == es[..n] + [last];
    ExpandAppend(es[..n], joined);
    assert Parts(joined) == Parts(last) + [OneCall(last.requestId, call)];
    assert PartsOf(pieces + [Calls(last.requestId, call)]) == PartsOf(pieces) + [OneCall(last.requestId, call)];
    assert WellMade(last);
    LongerRunMaximal(es, joined);
  }

  // ----- Grouping has one result -----

  lemma ExpandLast(es: seq<Entry>)
    requires es != [] && WellMade(es[|es| - 1])
    ensures Expand(es) != []
    ensures var last, e := Expand(es)[|Expand(es)| - 1], es[|es| - 1];
      if e.Tool? then last == OneCall(e.requestId, e.calls[|e.calls| - 1]) else last == Line(e)
  {
    var e := es[|es| - 1];
    assert Parts(e) != [] && Expand(es) == Expand(es[..|es| - 1]) + Parts(e);
    assert Expand(es)[|Expand(es)| - 1] == Parts(e)[|Parts(e)| - 1];
  }

  lemma MaximalPrefix(es: seq<Entry>, n: nat)
    requires Maximal(es) && n <= |es|
    ensures Maximal(es[..n])
  {
  }

  /** If one grouping's last run is the shorter, the rest of the other's makes an entry of the same turn before it. */
  lemma ShorterRunRepeats(es: seq<Entry>, fs: seq<Entry>)
    requires es != [] && fs != [] && Expand(es) == Expand(fs)
    requires forall e :: e in es ==> WellMade(e)
    requires var a, b := es[|es| - 1], fs[|fs| - 1];
      a.Tool? && b.Tool? && a.requestId == b.requestId && |a.calls| < |b.calls|
    ensures |es| >= 2 && SameRun(es[|es| - 2], es[|es| - 1])
  {
    var a, b := es[|es| - 1], fs[|fs| - 1];
    var es0, fs0 := es[..|es| - 1], fs[..|fs| - 1];
    var k := |b.calls| - |a.calls|;
    var rest := CallParts(b.requestId, b.calls[..k]);
    assert Parts(b) == rest + CallParts(b.requestId, b.calls[k..]);
    assert Expand(fs) == (Expand(fs0) + rest) + CallParts(b.requestId, b.calls[k..]);
    SameSuffix(Expand(es0), Parts(a), Expand(fs0) + rest, CallParts(b.requestId, b.calls[k..]));
    assert Expand(es0)[|Expand(es0)| - 1] == OneCall(b.requestId, b.calls[k - 1]);
    assert es0 != [] && es0[|es0| - 1] == es[|es| - 2];
    ExpandLast(es0);
  }

  lemma LastRunsMatch(es: seq<Entry>, fs: seq<Entry>)
    requires Maximal(es) && es != [] && fs != [] && Expand(es) == Expand(fs)
    requires es[|es| - 1].Tool? && fs[|fs| - 1].Tool? && es[|es| - 1].requestId == fs[|fs| - 1].requestId
    ensures |es[|es| - 1].calls| >= |fs[|fs| - 1].calls|
  {
    if |es[|es| - 1].calls| < |fs[|fs| - 1].calls| {
      ShorterRunRepeats(es, fs);
      assert false;
    }
  }

  lemma SameSuffix(x: seq<Part>, p: seq<Part>, y: seq<Part>, q: seq<Part>)
    requires x + p == y + q && |p| == |q|
    ensures x == y && p == q
  {
    assert x == (x + p)[..|x|] && y == (y + q)[..|y|];
    assert p == (x + p)[|x|..] && q == (y + q)[|y|..];
  }

  /** The last entries of two maximal groupings of the same parts are the same. */
  lemma SameLast(es: seq<Entry>, fs: seq<Entry>)
    requires Maximal(es) && Maximal(fs) && Expand(es) == Expand(fs) && es != [] && fs != []
    ensures es[|es| - 1] == fs[|fs| - 1] && Expand(es[..|es| - 1]) == Expand(fs[..|fs| - 1])
  {
    var a, b := es[|es| - 1], fs[|fs| - 1];
    assert WellMade(a) && WellMade(b);
    ExpandLast(es);
    ExpandLast(fs);
    if a.Tool? {
      LastRunsMatch(es, fs);
      LastRunsMatch(fs, es);
    }
    SameSuffix(Expand(es[..|es| - 1]), Parts(a), Expand(fs[..|fs| - 1]), Parts(b));
    SameParts(a, b);
  }

  /** The pieces decide the entries: any two maximal groupings of the same parts are the same list. */
  lemma {:induction false} OneGrouping(es: seq<Entry>, fs: seq<Entry>)
    requires Maximal(es) && Maximal(fs) && Expand(es) == Expand(fs)
    ensures es == fs
    decreases |es|
  {
    if es == [] || fs == [] {
      NothingExpands(es);
      NothingExpands(fs);
    } else {
      var n, m := |es| - 1, |fs| - 1;
      SameLast(es, fs);
      MaximalPrefix(es, n);
      MaximalPrefix(fs, m);
      OneGrouping(es[..n], fs[..m]);
      assert es == es[..n] + [es[n]] && fs == fs[..m] + [fs[m]];
    }
  }

  lemma NothingExpands(es: seq<Entry>)
    requires Maximal(es)
    ensures Expand(es) == [] <==> es == []
  {
    if es != [] {
      assert WellMade(es[|es| - 1]);
      ExpandLast(es);
    }
  }

  lemma SameParts(a: Entry, b: Entry)
    requires WellMade(a) && WellMade(b) && Parts(a) == Parts(b) && (a.Tool? <==> b.Tool?)
    ensures a == b
  {
    if a.Tool? {
      assert |a.calls| == |Parts(a)| == |Parts(b)| == |b.calls|;
      assert Parts(a)[0] == OneCall(a.requestId, a.calls[0]) && Parts(b)[0] == OneCall(b.requestId, b.calls[0]);
      forall i | 0 <= i < |a.calls| ensures a.calls[i] == b.calls[i] {
        assert Parts(a)[i] == OneCall(a.requestId, a.calls[i]) && Parts(b)[i] == OneCall(b.requestId, b.calls[i]);
      }
      assert a.calls == b.calls;
    } else {
      assert Parts(a)[0] == Line(a) && Parts(b)[0] == Line(b);
    }
  }

  // ----- entriesOf -----

  /** An entry before any retry is offered on it. */
  function Plain(e: Entry): Entry {
    if e.FailedTurn? then e.(retryable := false) else e
  }

  function PlainAll(es: seq<Entry>): (r: seq<Entry>)
    ensures |r| == |es| && forall i :: 0 <= i < |es| ==> r[i] == Plain(es[i])
  {
    seq(|es|, i requires 0 <= i < |es| => Plain(es[i]))
  }

  /** Retry is offered on a failed entry of the turn that drew the last entry, if the engine will retry it. */
  ghost predicate RetryOffered(es: seq<Entry>, retryableTurns: set<string>) {
    forall i :: 0 <= i < |es| && es[i].FailedTurn? ==>
      (es[i].retryable <==> es[i].requestId == es[|es| - 1].requestId && es[i].requestId in retryableTurns)
  }

  // ----- What each item shows as -----

  /** A task was filed in the turn `request`. */
  predicate FiledIn(items: seq<Item>, request: string) {
    exists o :: o in items && o.requestId == request && o.kind == "tool_output" && o.filed.Some?
  }

  /** The turn `request` holds a line of yours. */
  predicate TypedIn(items: seq<Item>, request: string) {
    exists o :: o in items && o.requestId == request && o.kind == "message" && o.role == "user" && !o.brief
  }

  predicate FailedIn(items: seq<Item>, request: string) {
    exists o :: o in items && o.requestId == request && o.kind == "error"
  }

  /** The item tells a task's ending; a retried one is none. */
  predicate TellsEnding(item: Item) {
    item.notice.Some? && item.notice.value.ending != "retried"
  }

  /** An item draws nothing when it is no call, no failure, no line of a user's, no ending, and has no text. */
  predicate ShowsUp(item: Item) {
    item.kind == "tool_output" || item.kind == "error" || item.role == "user" || TellsEnding(item) || item.text != ""
  }

  /** The items that are drawn, in their order. */
  function Shown(items: seq<Item>): seq<Item> {
    if items == [] then []
    else
      var n := |items| - 1;
      Shown(items[..n]) + if ShowsUp(items[n]) then [items[n]] else []
  }

  /** A tool item: the task it filed, drawn as a thread where threads are, or a call. */
  ghost predicate ToolShows(threads: bool, item: Item, part: Part) {
    item.kind == "tool_output" ==>
      && (threads && item.filed.Some? ==> part == Line(Thread(item.id, item.requestId, item.filed.value)))
      && (!threads || item.filed.None? ==> part == OneCall(item.requestId, Call(item.id, item.call)))
  }

  ghost predicate ErrorShows(item: Item, part: Part) {
    item.kind == "error" ==> part == Line(FailedTurn(item.id, item.requestId, false))
  }

  /** A user's message: a task's brief, or your own line, marked when its turn filed a task. */
  ghost predicate UserShows(items: seq<Item>, threads: bool, item: Item, part: Part) {
    item.kind !in {"tool_output", "error"} && item.role == "user" ==>
      && (item.brief ==> part == Line(Brief(item.id, item.requestId, item.text)))
      && (!item.brief ==>
            && part.Line? && part.entry.User?
            && part.entry.id == item.id && part.entry.requestId == item.requestId && part.entry.text == item.text
            && (part.entry.sentToThread <==> threads && FiledIn(items, item.requestId)))
  }

  /** An ending, or a delegate's answer: a result of its task, marked when it came during a turn of yours. */
  ghost predicate ResultShows(items: seq<Item>, item: Item, part: Part) {
    item.kind !in {"tool_output", "error"} && item.role != "user" && (TellsEnding(item) || item.answer.Some?) ==>
      && part.Line? && part.entry.Result?
      && part.entry.id == item.id && part.entry.requestId == item.requestId
      && (part.entry.duringTurn <==> TypedIn(items, item.requestId))
      && (TellsEnding(item) ==>
            && part.entry.taskId == item.notice.value.taskId && part.entry.status == item.notice.value.ending
            && (item.notice.value.detail.Some? ==> part.entry.summary == item.notice.value.detail.value)
            && (item.notice.value.detail.None? ==> part.entry.summary == item.text))
      && (!TellsEnding(item) ==>
            part.entry.taskId == item.answer.value.taskId && part.entry.status == "completed"
            && part.entry.summary == item.text)
  }

  /** Any other text: a reply, marked incomplete if it is not completed and its turn holds an error. */
  ghost predicate ReplyShows(items: seq<Item>, item: Item, part: Part) {
    item.kind !in {"tool_output", "error"} && item.role != "user" && !TellsEnding(item) && item.answer.None? ==>
      && part.Line? && part.entry.Assistant?
      && part.entry.id == item.id && part.entry.requestId == item.requestId && part.entry.text == item.text
      && (part.entry.incomplete <==> FailedIn(items, item.requestId) && item.status != "completed")
  }

  /** How an item that is drawn is drawn, among `items`. */
  ghost predicate ShowsAs(items: seq<Item>, threads: bool, item: Item, part: Part) {
    && ToolShows(threads, item, part) && ErrorShows(item, part) && UserShows(items, threads, item, part)
    && ResultShows(items, item, part) && ReplyShows(items, item, part)
  }

  /** The parts drawn are those of the items that are drawn, each drawn as its own fields and the others' say. */
  ghost predicate ShowsAll(items: seq<Item>, threads: bool, shown: seq<Item>, parts: seq<Part>) {
    |parts| == |shown| && forall k :: 0 <= k < |shown| ==> ShowsAs(items, threads, shown[k], parts[k])
  }

  lemma TurnsAre(items: seq<Item>, request: string)
    ensures request in TurnsOf(items).filing <==> FiledIn(items, request)
    ensures request in TurnsOf(items).user <==> TypedIn(items, request)
    ensures request in TurnsOf(items).failed <==> FailedIn(items, request)
  {
    if FiledIn(items, request) {
      var o :| o in items && o.requestId == request && o.kind == "tool_output" && o.filed.Some?;
      assert FiledTask(o).Some?;
    }
  }

  lemma ClassifyShows(items: seq<Item>, item: Item, threads: bool)
    ensures var piece := Classify(item, threads, TurnsOf(items));
      && (piece != Nothing <==> ShowsUp(item))
      && (piece != Nothing ==> ShowsAs(items, threads, item, PartOf(piece)))
  {
    TurnsAre(items, item.requestId);
  }

  lemma {:induction false} DrawnShows(all: seq<Item>, items: seq<Item>, threads: bool)
    ensures var pieces := Drawn(items, threads, TurnsOf(all));
      Nothing !in pieces && ShowsAll(all, threads, Shown(items), PartsOf(pieces))
  {
    if items != [] {
      var n := |items| - 1;
      DrawnShows(all, items[..n], threads);
      ClassifyShows(all, items[n], threads);
    }
  }

  /** What an item that is no tool call pushes, tried in the order that decides it. */
  method DrawOne(item: Item, threads: bool, turns: Turns) returns (drawn: Option<Entry>)
    requires !Classify(item, threads, turns).Calls?
    ensures Classify(item, threads, turns) == (if drawn.Some? then Draws(drawn.value) else Nothing)
    ensures drawn.Some? ==> !drawn.value.Tool? && (drawn.value.FailedTurn? ==> !drawn.value.retryable)
  {
    if threads && FiledTask(item).Some? {
      return Some(Thread(item.id, item.requestId, FiledTask(item).value));
    }
    if item.kind == "error" {
      return Some(FailedTurn(item.id, item.requestId, false));
    }
    var text := item.text;
    if item.role == "user" && item.brief {
      return Some(Brief(item.id, item.requestId, text));
    }
    if item.role == "user" {
      return Some(User(item.id, item.requestId, text, threads && item.requestId in turns.filing));
    }
    if item.notice.Some? && item.notice.value.ending != "retried" {
      var n := item.notice.value;
      var summary := if n.detail.Some? then n.detail.value else text;
      return Some(Result(item.id, item.requestId, n.taskId, n.ending, summary, item.requestId in turns.user));
    }
    if item.answer.Some? && |text| > 0 {
      var taskId := item.answer.value.taskId;
      return Some(Result(item.id, item.requestId, taskId, "completed", text, item.requestId in turns.user));
    }
    if |text| > 0 {
      var incomplete := item.requestId in turns.failed && item.status != "completed";
      return Some(Assistant(item.id, item.requestId, text, incomplete));
    }
    drawn := None;
  }

  /** `runs` holds the calls of the last entry, when that is a tool entry. */
  ghost predicate RunsHoldLast(entries: seq<Entry>, runs: map<string, seq<Call>>) {
    entries != [] && entries[|entries| - 1].Tool? ==>
      var last := entries[|entries| - 1];
      last.id in runs && runs[last.id] == last.calls
  }

  /** Append a call: to the last entry, if that is made of calls of this turn, or as an entry of its own. */
  method AddCall(entries: seq<Entry>, runs: map<string, seq<Call>>, requestId: string, call: Call,
                 ghost pieces: seq<Piece>)
    returns (entries': seq<Entry>, runs': map<string, seq<Call>>)
    requires Groups(pieces, entries) && RunsHoldLast(entries, runs)
    ensures Groups(pieces + [Calls(requestId, call)], entries') && RunsHoldLast(entries', runs')
    ensures forall e :: e in entries' && !e.Tool? ==> e in entries
  {
    if entries != [] && entries[|entries| - 1].Tool? && entries[|entries| - 1].requestId == requestId {
      var last := entries[|entries| - 1];
      var calls := runs[last.id] + [call];
      runs' := runs[last.id := calls];
      JoinsRun(pieces, entries, call);
      entries' := entries[..|entries| - 1] + [Tool(last.id, requestId, calls)];
    } else {
      var entry := Tool(call.id, requestId, [call]);
      runs' := runs[call.id := [call]];
      assert Parts(entry) == [OneCall(requestId, call)];
      StartsEntry(pieces, entries, Calls(requestId, call), entry);
      entries' := entries + [entry];
    }
  }

  /** Append what an item that is no call draws, if anything. */
  method AddDrawn(entries: seq<Entry>, drawn: Option<Entry>, ghost pieces: seq<Piece>) returns (entries': seq<Entry>)
    requires Groups(pieces, entries)
    requires drawn.Some? ==> !drawn.value.Tool? && (drawn.value.FailedTurn? ==> !drawn.value.retryable)
    ensures Groups(AndDrawn(pieces, if drawn.Some? then Draws(drawn.value) else Nothing), entries')
    ensures entries' == entries + (if drawn.Some? then [drawn.value] else [])
  {
    entries' := entries;
    if drawn.Some? {
      StartsEntry(pieces, entries, Draws(drawn.value), drawn.value);
      entries' := entries + [drawn.value];
    }
  }

  /** One turn of the loop over the items. */
  method Push(entries: seq<Entry>, runs: map<string, seq<Call>>, item: Item, threads: bool, turns: Turns,
              ghost pieces: seq<Piece>)
    returns (entries': seq<Entry>, runs': map<string, seq<Call>>)
    requires Groups(pieces, entries) && RunsHoldLast(entries, runs)
    requires forall e :: e in entries && e.FailedTurn? ==> !e.retryable
    ensures Groups(AndDrawn(pieces, Classify(item, threads, turns)), entries') && RunsHoldLast(entries', runs')
    ensures forall e :: e in entries' && e.FailedTurn? ==> !e.retryable
  {
    if item.kind == "tool_output" && !(threads && FiledTask(item).Some?) {
      entries', runs' := AddCall(entries, runs, item.requestId, Call(item.id, item.call), pieces);
    } else {
      runs' := runs;
      var drawn := DrawOne(item, threads, turns);
      entries' := AddDrawn(entries, drawn, pieces);
    }
  }

  method OfferRetry(entries: seq<Entry>, retryableTurns: set<string>) returns (es: seq<Entry>)
    requires forall e :: e in entries && e.FailedTurn? ==> !e.retryable
    ensures |es| == |entries| && forall i :: 0 <= i < |es| ==> Plain(es[i]) == entries[i]
    ensures RetryOffered(es, retryableTurns)
  {
    es := seq(|entries|, i requires 0 <= i < |entries| =>
      var e := entries[i];
      if e.FailedTurn? && e.requestId == entries[|entries| - 1].requestId && e.requestId in retryableTurns
      then e.(retryable := true) else e);
    forall i | 0 <= i < |es| ensures Plain(es[i]) == entries[i] {
      assert entries[i] in entries;
    }
  }

  /**
   The entries are the one maximal grouping of what the items draw: every part
   in order and exactly once, calls of one turn in a row as one entry, each part
   as its item's own fields and the other items of its turn say. `runs`
   always holds the calls of the last tool entry. A failed entry is retryable
   exactly when its turn drew the last entry and the engine will retry it.
   */
  method EntriesOf(items: seq<Item>, threads: bool, retryableTurns: set<string>) returns (es: seq<Entry>)
    ensures Groups(Drawn(items, threads, TurnsOf(items)), PlainAll(es))
    ensures Maximal(PlainAll(es)) && ShowsAll(items, threads, Shown(items), Expand(PlainAll(es)))
    ensures RetryOffered(es, retryableTurns)
  {
    var turns := TurnsOf(items);
    var entries: seq<Entry> := [];
    var runs: map<string, seq<Call>> := map[];
    var i := 0;
    while i < |items|
      invariant 0 <= i <= |items|
      invariant Groups(Drawn(items[..i], threads, turns), entries) && RunsHoldLast(entries, runs)
      invariant forall e :: e in entries && e.FailedTurn? ==> !e.retryable
    {
      assert items[..i + 1][..i] == items[..i];
      entries, runs := Push(entries, runs, items[i], threads, turns, Drawn(items[..i], threads, turns));
      i := i + 1;
    }
    assert items[..i] == items;
    es := OfferRetry(entries, retryableTurns);
    assert PlainAll(es) == entries;
    DrawnShows(items, items, threads);
  }
}
