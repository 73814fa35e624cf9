/**
 What a harness session's page reads off its items and turn records: the turns
 and their numbers, whether one is stopped or waits, and the plan panel's rows.
 */
module HarnessTurns {
  import opened Parts
  import opened Wrappers
  import Sorting

  const STOP_CODE := "system.request_aborted"

  datatype Detail = NotAnObject | Object(code: Option<string>)

  datatype TurnItem = TurnItem(requestId: string, kind: string, detail: Detail)

  datatype RequestStatus = Completed | Incomplete | Failed | Interrupted | Aborted | Suspended | InFlight

  datatype TurnStatus = Running | Waiting | Done | Broken | Stopped

  datatype Request = Request(id: string, status: RequestStatus)

  datatype LatestTurn = LatestTurn(requestId: string, number: nat, status: TurnStatus)

  function StatusOf(status: RequestStatus): TurnStatus {
    match status
    case Completed => Done
    case Incomplete => Done
    case Failed => Broken
    case Interrupted => Broken
    case Aborted => Stopped
    case Suspended => Waiting
    case InFlight => Running
  }

  predicate IsStopItem(item: TurnItem) {
    item.kind == "status" && item.detail.Object? && item.detail.code == Some(STOP_CODE)
  }

  // ----- The turns -----

  function Put(turns: seq<string>, id: string): seq<string> {
    if id in turns then turns else turns + [id]
  }

  /** Each request some item names, once, by its first item. */
  function Turns(items: seq<TurnItem>): seq<string> {
    if items == [] then [] else Put(Turns(items[..|items| - 1]), items[|items| - 1].requestId)
  }

  predicate HasStop(items: seq<TurnItem>, id: string) {
    exists item :: item in items && item.requestId == id && IsStopItem(item)
  }

  /** The items show the turn stopped: they hold the status item that the framework writes for it. */
  ghost predicate ShowsStop(items: seq<TurnItem>, id: string) {
    exists item :: item in items && item.requestId == id
                   && item.kind == "status" && item.detail.Object? && item.detail.code == Some("system.request_aborted")
  }

  function Place(turns: seq<string>, id: string): (i: nat)
    requires id in turns
    ensures i < |turns| && turns[i] == id && id !in turns[..i]
  {
    if turns[0] == id then 0 else 1 + Place(turns[1..], id)
  }

  lemma TurnsNext(items: seq<TurnItem>, i: nat)
    requires i < |items|
    ensures Turns(items[..i + 1]) == Put(Turns(items[..i]), items[i].requestId)
  {
    assert items[..i + 1][..i] == items[..i];
  }

  ghost predicate NoRepeats(turns: seq<string>) {
    forall i, j :: 0 <= i < j < |turns| ==> turns[i] != turns[j]
  }

  lemma {:induction false} TurnsAreNamed(items: seq<TurnItem>, id: string)
    ensures id in Turns(items) <==> exists item :: item in items && item.requestId == id
  {
    if items != [] {
      var before, last := items[..|items| - 1], items[|items| - 1];
      TurnsAreNamed(before, id);
      assert items == before + [last];
      assert forall item :: item in items <==> item == last || item in before;
    }
  }

  /** No turn is listed twice, and the turns are those the items name. */
  lemma {:induction false} TurnsAreTheRequests(items: seq<TurnItem>)
    ensures NoRepeats(Turns(items))
    ensures forall id :: id in Turns(items) <==> exists item :: item in items && item.requestId == id
    ensures Turns(items) == [] <==> items == []
  {
    if items != [] {
      TurnsAreTheRequests(items[..|items| - 1]);
    }
    forall id ensures id in Turns(items) <==> exists item :: item in items && item.requestId == id {
      TurnsAreNamed(items, id);
    }
  }

  /** Appending items leaves the turns there were where they are. */
  lemma {:induction false} TurnsOnlyGrow(items: seq<TurnItem>, more: seq<TurnItem>)
    ensures Turns(items) <= Turns(items + more)
  {
    if more == [] {
      assert items + more == items;
    } else {
      var fewer := more[..|more| - 1];
      TurnsOnlyGrow(items, fewer);
      assert (items + more)[..|items + more| - 1] == items + fewer;
    }
  }

  /** The turns stand in the order they started: the first `n` are the turns of some beginning of the items. */
  lemma {:induction false} TurnsInStartOrder(items: seq<TurnItem>, n: nat) returns (k: nat)
    requires n <= |Turns(items)|
    ensures k <= |items| && Turns(items[..k]) == Turns(items)[..n]
  {
    if n == |Turns(items)| {
      k := |items|;
      assert items[..k] == items;
    } else {
      var before := items[..|items| - 1];
      k := TurnsInStartOrder(before, n);
      assert before[..k] == items[..k];
    }
  }

  /** Each turn's number, from 1. */
  function Numbers(turns: seq<string>): map<string, nat> {
    map id | id in turns :: Place(turns, id) + 1
  }

  lemma {:induction false} PlaceNext(turns: seq<string>, id: string, last: string)
    requires id in turns + [last]
    ensures Place(turns + [last], id) == if id in turns then Place(turns, id) else |turns|
  {
    if turns != [] && turns[0] != id {
      assert (turns + [last])[1..] == turns[1..] + [last];
      PlaceNext(turns[1..], id, last);
    }
  }

  lemma NumbersNext(turns: seq<string>, id: string)
    requires id !in turns
    ensures Numbers(turns + [id]) == Numbers(turns)[id := |turns| + 1]
  {
    forall a | a in turns + [id] ensures Place(turns + [id], a) == if a in turns then Place(turns, a) else |turns| {
      PlaceNext(turns, a, id);
    }
  }

  method TurnNumbers(items: seq<TurnItem>) returns (numbers: map<string, nat>)
    ensures numbers == Numbers(Turns(items))
    ensures |numbers| == |Turns(items)|
  {
    numbers := map[];
    for i := 0 to |items|
      invariant numbers == Numbers(Turns(items[..i])) && |numbers| == |Turns(items[..i])|
    {
      TurnsNext(items, i);
      ghost var turns := Turns(items[..i]);
      var id := items[i].requestId;
      if id !in numbers {
        NumbersNext(turns, id);
        numbers := numbers[id := |numbers| + 1];
      }
    }
    assert items[..|items|] == items;
  }

  /** The numbers are a bijection: every turn has one from 1 to how many there are, and every such number one turn. */
  lemma NumbersAreABijection(items: seq<TurnItem>)
    ensures var t, n := Turns(items), Numbers(Turns(items));
      && (forall id :: id in n ==> 1 <= n[id] <= |t|)
      && (forall a, b :: a in n && b in n && n[a] == n[b] ==> a == b)
      && (forall i :: 0 <= i < |t| ==> t[i] in n && n[t[i]] == i + 1)
  {
    TurnsAreTheRequests(items);
    var t := Turns(items);
    forall i | 0 <= i < |t| ensures Place(t, t[i]) == i {
      var j := Place(t, t[i]);
      assert t[j] == t[i];
    }
  }

  /** A turn keeps its number as items are appended. */
  lemma NumbersStay(items: seq<TurnItem>, more: seq<TurnItem>, id: string)
    requires id in Turns(items)
    ensures id in Numbers(Turns(items + more)) && Numbers(Turns(items + more))[id] == Numbers(Turns(items))[id]
  {
    var t, t' := Turns(items), Turns(items + more);
    TurnsOnlyGrow(items, more);
    TurnsAreTheRequests(items + more);
    assert t'[Place(t, id)] == id;
  }

  /** The latest turn as its parts: the turn that started last, and how it stands. */
  function LatestOf(items: seq<TurnItem>, streaming: bool, request: Option<Request>): Option<LatestTurn> {
    var turns := Turns(items);
    if turns == [] then None
    else
      var id := turns[|turns| - 1];
      Some(LatestTurn(id, |turns|,
                      if HasStop(items, id) then Stopped
                      else if streaming || request.None? || request.value.id != id then Running
                      else StatusOf(request.value.status)))
  }

  method LatestTurnOf(items: seq<TurnItem>, streaming: bool, request: Option<Request>)
    returns (latest: Option<LatestTurn>)
    ensures latest == LatestOf(items, streaming, request)
  {
    var turns: seq<string> := [];
    var stopped: set<string> := {};
    for i := 0 to |items|
      invariant turns == Turns(items[..i])
      invariant forall id :: id in stopped <==> HasStop(items[..i], id)
    {
      TurnsNext(items, i);
      StopNext(items, i);
      turns := Put(turns, items[i].requestId);
      if IsStopItem(items[i]) {
        stopped := stopped + {items[i].requestId};
      }
    }
    assert items[..|items|] == items;
    if turns == [] {
      return None;
    }
    var requestId := turns[|turns| - 1];
    var status :=
      if requestId in stopped then Stopped
      else if streaming || request.None? || request.value.id != requestId then Running
      else StatusOf(request.value.status);
    latest := Some(LatestTurn(requestId, |turns|, status));
  }

  lemma StopNext(items: seq<TurnItem>, i: nat)
    requires i < |items|
    ensures forall id :: HasStop(items[..i + 1], id)
                    <==> HasStop(items[..i], id) || (items[i].requestId == id && IsStopItem(items[i]))
  {
    assert items[..i + 1] == items[..i] + [items[i]];
    forall id
      ensures HasStop(items[..i + 1], id)
         <==> HasStop(items[..i], id) || (items[i].requestId == id && IsStopItem(items[i])) {
      if item :| item in items[..i] && item.requestId == id && IsStopItem(item) {
        assert item in items[..i + 1];
      }
      assert items[i] in items[..i + 1];
    }
  }

  /**
   The latest turn is numbered as `turnNumbers` numbers it, which is last; there
   is one as soon as there is an item.
   */
  lemma LatestHasTheLastNumber(items: seq<TurnItem>, streaming: bool, request: Option<Request>)
    ensures var latest, n := LatestOf(items, streaming, request), Numbers(Turns(items));
      && (latest.None? <==> items == [])
      && (latest.Some? ==> latest.value.requestId in n && n[latest.value.requestId] == latest.value.number)
      && (latest.Some? ==> forall id :: id in n ==> n[id] <= latest.value.number)
  {
    TurnsAreTheRequests(items);
    NumbersAreABijection(items);
    var t := Turns(items);
    if t != [] {
      assert t[|t| - 1] in Numbers(t);
    }
  }

  /**
   How the latest turn stands: stopped when its stop item is there, else running
   unless the request list, read after the stream, names it, and then as listed.
   */
  lemma LatestStands(items: seq<TurnItem>, streaming: bool, request: Option<Request>)
    requires LatestOf(items, streaming, request).Some?
    ensures var latest := LatestOf(items, streaming, request).value;
      var stop := ShowsStop(items, latest.requestId);
      var listed := !streaming && request.Some? && request.value.id == latest.requestId;
      && (latest.status == Stopped <==> stop || (listed && request.value.status == Aborted))
      && (latest.status == Done <==> !stop && listed && request.value.status in {Completed, Incomplete})
      && (latest.status == Broken <==> !stop && listed && request.value.status in {Failed, Interrupted})
      && (latest.status == Waiting <==> !stop && listed && request.value.status == Suspended)
      && (latest.status == Running <==> !stop && (!listed || request.value.status == InFlight))
  {
    var id := LatestOf(items, streaming, request).value.requestId;
    assert HasStop(items, id) <==> ShowsStop(items, id);
    if request.Some? {
      assert request.value.status.Completed? || request.value.status.Incomplete? || request.value.status.Failed?
          || request.value.status.Interrupted? || request.value.status.Aborted? || request.value.status.Suspended?
          || request.value.status.InFlight?;
    }
  }

  // ----- Stopped and waiting -----

  /** A turn's record, as far as the derivations read it; times are absent or numbers. */
  datatype TurnRecord = TurnRecord(asked: Option<string>, confirmed: Option<string>, at: Option<int>,
                                   waitsOnApproval: bool, endedAt: Option<int>)

  /** The records by request id, in the order the object lists them. */
  type Records = seq<(string, TurnRecord)>

  predicate Waits(entry: (string, TurnRecord), items: seq<TurnItem>) {
    entry.1.waitsOnApproval && entry.1.endedAt.None? && !HasStop(items, entry.0)
  }

  function WaitingOf(records: Records, items: seq<TurnItem>): Option<string> {
    if records == [] then None
    else if Waits(records[0], items) then Some(records[0].0)
    else WaitingOf(records[1..], items)
  }

  /** The record waits on an approval, its turn has not ended, and the items do not show it stopped. */
  ghost predicate StillWaits(entry: (string, TurnRecord), items: seq<TurnItem>) {
    entry.1.waitsOnApproval && entry.1.endedAt == None && !ShowsStop(items, entry.0)
  }

  ghost predicate IsFirstWaiting(records: Records, items: seq<TurnItem>, i: nat) {
    i < |records| && StillWaits(records[i], items) && forall j :: 0 <= j < i ==> !StillWaits(records[j], items)
  }

  predicate ShowsWaiting(records: Records, items: seq<TurnItem>, id: string) {
    WaitingOf(records, items) == Some(id)
  }

  method TurnWaitingOnApproval(records: Records, items: seq<TurnItem>) returns (waiting: Option<string>)
    ensures waiting == WaitingOf(records, items)
    ensures waiting.Some? <==> exists i :: 0 <= i < |records| && StillWaits(records[i], items)
    ensures waiting.Some? ==> exists i: nat :: IsFirstWaiting(records, items, i) && records[i].0 == waiting.value
  {
    var i := 0;
    while i < |records|
      invariant 0 <= i <= |records|
      invariant WaitingOf(records[i..], items) == WaitingOf(records, items)
      invariant forall j :: 0 <= j < i ==> !StillWaits(records[j], items)
    {
      assert HasStop(items, records[i].0) <==> ShowsStop(items, records[i].0);
      var requestId, turn := records[i].0, records[i].1;
      if turn.waitsOnApproval && turn.endedAt.None? {
        var stopped := false;
        for k := 0 to |items|
          invariant !stopped && forall m :: 0 <= m < k ==> !(items[m].requestId == requestId && IsStopItem(items[m]))
        {
          if items[k].requestId == requestId && IsStopItem(items[k]) {
            stopped := true;
            break;
          }
        }
        if !stopped {
          assert !HasStop(items, requestId) && IsFirstWaiting(records, items, i);
          return Some(requestId);
        }
      }
      assert records[i..][1..] == records[i + 1..];
      i := i + 1;
    }
    waiting := None;
  }

  lemma {:induction false} WaitingHasNoStop(records: Records, items: seq<TurnItem>)
    ensures WaitingOf(records, items).Some? ==> !HasStop(items, WaitingOf(records, items).value)
  {
    if records != [] {
      WaitingHasNoStop(records[1..], items);
    }
  }

  /**
   A turn shown as stopped is never the one that waits on an approval, whatever the
   records say, exactly when the items hold its stop item. One that is stopped by
   the request list alone can still be recorded as waiting.
   */
  lemma StoppedAndWaiting(items: seq<TurnItem>, streaming: bool, request: Option<Request>)
    requires LatestOf(items, streaming, request).Some? && LatestOf(items, streaming, request).value.status == Stopped
    ensures var id := LatestOf(items, streaming, request).value.requestId;
      (forall records: Records :: !ShowsWaiting(records, items, id)) <==> ShowsStop(items, id)
  {
    var id := LatestOf(items, streaming, request).value.requestId;
    assert HasStop(items, id) <==> ShowsStop(items, id);
    if HasStop(items, id) {
      forall records: Records ensures !ShowsWaiting(records, items, id) {
        WaitingHasNoStop(records, items);
      }
    } else {
      var records: Records := [(id, TurnRecord(None, None, None, true, None))];
      assert ShowsWaiting(records, items, id);
    }
  }

  /** It happens: one plain item, a request the list calls aborted, and a record that still waits. */
  lemma StoppedByTheListAlone()
    ensures var items, request := [TurnItem("r", "message", NotAnObject)], Some(Request("r", Aborted));
      var latest := LatestOf(items, false, request);
      && latest == Some(LatestTurn("r", 1, Stopped)) && !HasStop(items, "r")
      && WaitingOf([("r", TurnRecord(None, None, None, true, None))], items) == Some("r")
  {
    var items := [TurnItem("r", "message", NotAnObject)];
    assert items[..0] == [];
    assert Turns(items) == ["r"];
  }

  // ----- The earliest turn of a conversation -----

  predicate Names(r: TurnRecord, matches: string -> bool) {
    (r.asked.Some? && matches(r.asked.value)) || (r.confirmed.Some? && matches(r.confirmed.value))
  }

  /** A turn without a time counts as later than any with one. */
  predicate Before(a: Option<int>, b: Option<int>) {
    a.Some? && (b.None? || a.value < b.value)
  }

  /** The turn asked for the conversation or confirmed it. */
  ghost predicate NamesIt(r: TurnRecord, matches: string -> bool) {
    exists id :: (r.asked == Some(id) || r.confirmed == Some(id)) && matches(id)
  }

  ghost predicate IsEarliest(records: Records, matches: string -> bool, i: nat) {
    && i < |records| && NamesIt(records[i].1, matches)
    && var at := records[i].1.at;
       && (forall j :: 0 <= j < |records| && NamesIt(records[j].1, matches) && records[j].1.at.Some? ==>
             at.Some? && at.value <= records[j].1.at.value)
       && (forall j :: 0 <= j < i && NamesIt(records[j].1, matches) ==>
             at.Some? && (records[j].1.at.None? || at.value < records[j].1.at.value))
  }

  lemma NamedIsNames(r: TurnRecord, matches: string -> bool)
    ensures NamesIt(r, matches) <==> Names(r, matches)
  {
    if r.asked.Some? && matches(r.asked.value) {
      assert r.asked == Some(r.asked.value);
    } else if r.confirmed.Some? && matches(r.confirmed.value) {
      assert r.confirmed == Some(r.confirmed.value);
    }
  }

  /** The named turn of the least time, the first listed of equals; none when no record names the conversation. */
  method EarliestTurnOf(records: Records, matches: string -> bool) returns (earliest: Option<string>)
    ensures earliest.None? <==> forall i :: 0 <= i < |records| ==> !NamesIt(records[i].1, matches)
    ensures earliest.Some? ==> exists i: nat :: IsEarliest(records, matches, i) && records[i].0 == earliest.value
  {
    var best: Option<(string, Option<int>)> := None;
    ghost var at: nat := 0;
    for i := 0 to |records|
      invariant best.None? <==> forall j :: 0 <= j < i ==> !NamesIt(records[j].1, matches)
      invariant best.Some? ==> at < i && IsEarliest(records[..i], matches, at)
                               && best.value == (records[at].0, records[at].1.at)
    {
      var requestId, record := records[i].0, records[i].1;
      NamedIsNames(record, matches);
      if Names(record, matches) && (best.None? || Before(record.at, best.value.1)) {
        best := Some((requestId, record.at));
        at := i;
      }
    }
    assert records[..|records|] == records;
    earliest := if best.Some? then Some(best.value.0) else None;
  }

  // ----- The plan panel -----

  datatype Row = Row(topic: string, title: Option<string>, status: Option<string>, requestId: Option<string>)

  datatype Marker = Marker(topic: string, status: Option<string>, count: Option<int>, reason: Option<string>,
                           conversation: Option<string>)

  datatype Scope = OfTurn | OfConversation

  datatype Conversation = Conversation(turns: map<string, nat>, predates: bool)

  datatype Input = Input(declared: bool, tag: string, turn: Option<nat>, ended: bool, rows: seq<Row>,
                         markers: seq<Marker>, conversation: Option<Conversation>)

  datatype Shown = Shown(key: string, title: Option<string>, status: Option<string>)

  datatype Panel =
    | Undeclared(tag: string)
    | NoTurn
    | NoPlan(scope: Scope, turn: Option<nat>)
    | EmptyPlan(scope: Scope, turn: Option<nat>)
    | Rows(scope: Scope, turn: Option<nat>, rows: seq<Shown>, incomplete: Option<Option<string>>)

  const PREDATES_REASON := "this conversation began before plans were kept across turns"

  function RunOf(topic: string): string {
    var parts := Split('/', topic);
    Join('/', if |parts| <= 2 then parts else parts[..2])
  }

  function KeyOf(topic: string): string {
    var parts := Split('/', topic);
    Join('/', if |parts| <= 2 then [] else parts[2..])
  }

  predicate IsDigits(s: string) {
    s != [] && forall i :: 0 <= i < |s| ==> '0' <= s[i] <= '9'
  }

  function NumberOf(s: string): nat
    requires forall i :: 0 <= i < |s| ==> '0' <= s[i] <= '9'
  {
    if s == [] then 0 else NumberOf(s[..|s| - 1]) * 10 + (s[|s| - 1] as int - '0' as int)
  }

  /** Without a count every row counts; with one, only the places below it. */
  predicate Below(key: string, count: Option<int>) {
    count.None? || (IsDigits(key) && NumberOf(key) < count.value)
  }

  function ListMarkers(markers: seq<Marker>): seq<Marker> {
    if markers == [] then []
    else (if markers[0].conversation.None? then [markers[0]] else []) + ListMarkers(markers[1..])
  }

  function RunsOf(rows: seq<Row>, markers: seq<Marker>): seq<string> {
    if rows != [] then [RunOf(rows[0].topic)] + RunsOf(rows[1..], markers)
    else if markers != [] then [RunOf(markers[0].topic)] + RunsOf([], markers[1..])
    else []
  }

  function Unique(names: seq<string>): seq<string> {
    if names == [] then [] else Put(Unique(names[..|names| - 1]), names[|names| - 1])
  }

  function MarkerOf(markers: seq<Marker>, run: string): Option<Marker> {
    if markers == [] then None
    else if RunOf(markers[0].topic) == run then Some(markers[0])
    else MarkerOf(markers[1..], run)
  }

  function InRun(rows: seq<Row>, run: string): seq<Row> {
    if rows == [] then [] else (if RunOf(rows[0].topic) == run then [rows[0]] else []) + InRun(rows[1..], run)
  }

  function ShownOf(r: Row): Shown {
    Shown(KeyOf(r.topic), r.title, r.status)
  }

  /** The rows' shown forms whose place is below the count. */
  function Counted(rows: seq<Row>, count: Option<int>): seq<Shown> {
    if rows == [] then []
    else (if Below(KeyOf(rows[0].topic), count) then [ShownOf(rows[0])] else []) + Counted(rows[1..], count)
  }

  /** The numbers of the turns that last wrote the rows, where they are known. */
  function ChangedIn(rows: seq<Row>, turns: map<string, nat>): seq<nat> {
    if rows == [] then []
    else
      (if rows[0].requestId.Some? && rows[0].requestId.value in turns then [turns[rows[0].requestId.value]] else [])
      + ChangedIn(rows[1..], turns)
  }

  function Max(ns: seq<nat>): nat
    requires ns != []
  {
    if |ns| == 1 || ns[0] >= Max(ns[1..]) then ns[0] else Max(ns[1..])
  }

  function KeyLe(numLe: (string, string) -> bool): (Shown, Shown) -> bool {
    (a: Shown, b: Shown) => numLe(a.key, b.key)
  }

  /** The runs the rows and list markers name, in numeric order. */
  function OrderedRuns(numLe: (string, string) -> bool, rows: seq<Row>, markers: seq<Marker>): seq<string> {
    Sorting.Sort(numLe, Unique(RunsOf(rows, markers)))
  }

  function RunsInOrder(numLe: (string, string) -> bool, input: Input): seq<string> {
    OrderedRuns(numLe, input.rows, ListMarkers(input.markers))
  }

  function PlanPanelState(numLe: (string, string) -> bool, input: Input): Panel {
    if !input.declared then Undeclared(input.tag)
    else if input.turn.None? then NoTurn
    else PlanOf(numLe, input.rows, ListMarkers(input.markers), input.turn, input.ended, input.conversation)
  }

  function CountOf(marker: Option<Marker>): Option<int> {
    if marker.Some? then marker.value.count else None
  }

  /** A run's rows as they are shown: those its marker counts, by key. */
  function ShownRows(numLe: (string, string) -> bool, marker: Option<Marker>, inRun: seq<Row>): seq<Shown> {
    Sorting.Sort(KeyLe(numLe), Counted(inRun, CountOf(marker)))
  }

  /** The list is not whole, as its marker says, or because the turn ended before it was written. */
  predicate Unfinished(marker: Option<Marker>, ended: bool) {
    marker.Some? && (marker.value.status == Some("incomplete") || (marker.value.status == Some("writing") && ended))
  }

  /** The plan of a declared record's rows and list markers. */
  function PlanOf(numLe: (string, string) -> bool, all: seq<Row>, markers: seq<Marker>, latest: Option<nat>,
                  ended: bool,
                  conversation: Option<Conversation>): Panel
  {
    var runs := OrderedRuns(numLe, all, markers);
    if runs == [] then Unplanned(latest, conversation)
    else
      var run := runs[|runs| - 1];
      PlanOfRun(numLe, MarkerOf(markers, run), InRun(all, run), latest, ended, conversation)
  }

  function ScopeOf(conversation: Option<Conversation>): Scope {
    if conversation.None? then OfTurn else OfConversation
  }

  function Unplanned(latest: Option<nat>, conversation: Option<Conversation>): Panel {
    NoPlan(ScopeOf(conversation), if conversation.None? then latest else None)
  }

  function PlanOfRun(numLe: (string, string) -> bool, marker: Option<Marker>, inRun: seq<Row>, latest: Option<nat>,
                     ended: bool,
                     conversation: Option<Conversation>): Panel
  {
    var rows := ShownRows(numLe, marker, inRun);
    var incomplete := if Unfinished(marker, ended) then Some(marker.value.reason) else None;
    if marker.Some? && marker.value.status == Some("complete") && marker.value.count == Some(0) then
      EmptyPlan(ScopeOf(conversation), if conversation.None? then latest else None)
    else if marker.None? && rows == [] then Unplanned(latest, conversation)
    else if conversation.None? then Rows(OfTurn, latest, rows, incomplete)
    else
      Rows(OfConversation, LastChange(inRun, conversation.value.turns), rows,
           if incomplete.None? && conversation.value.predates then Some(Some(PREDATES_REASON)) else incomplete)
  }

  function LastChange(inRun: seq<Row>, turns: map<string, nat>): Option<nat> {
    var changedIn := ChangedIn(inRun, turns);
    if changedIn == [] then None else Some(Max(changedIn))
  }

  // ----- Topics and places -----

  /** A topic's run is its first two names and its key the rest; a shorter topic is all run. */
  lemma TopicReads(a: string, b: string, key: string)
    requires '/' !in a && '/' !in b
    ensures RunOf(a + ['/'] + b + ['/'] + key) == a + ['/'] + b && KeyOf(a + ['/'] + b + ['/'] + key) == key
    ensures RunOf(a + ['/'] + b) == a + ['/'] + b && KeyOf(a + ['/'] + b) == []
    ensures RunOf(a) == a && KeyOf(a) == []
  {
    SplitPlain('/', a);
    SplitPlain('/', b);
    SplitAppend('/', a, b);
    SplitThree('/', a, b, key);
    JoinSplit('/', key);
    assert [a, b][1..] == [b] && Join('/', [a, b]) == a + ['/'] + b;
    var parts := [a] + [b] + Split('/', key);
    assert parts[..2] == [a, b] && parts[2..] == Split('/', key);
  }

  /** Places are decimal: the last `|b|` digits of a key are its value below ten to that many. */
  lemma {:induction false} PlacesAdd(a: string, b: string)
    requires forall i :: 0 <= i < |a| ==> '0' <= a[i] <= '9'
    requires forall i :: 0 <= i < |b| ==> '0' <= b[i] <= '9'
    ensures NumberOf(a + b) == NumberOf(a) * Pow10(|b|) + NumberOf(b)
    ensures |b| == 1 ==> NumberOf(b) == b[0] as int - '0' as int
  {
    if b == [] {
      assert a + b == a;
    } else {
      var n := |b| - 1;
      PlacesAdd(a, b[..n]);
      assert (a + b)[..|a| + n] == a + b[..n];
      var high := NumberOf(a) * Pow10(n);
      assert NumberOf(a + b[..n]) == high + NumberOf(b[..n]);
      TenTimes(NumberOf(a), n, high);
      assert NumberOf(a) * Pow10(|b|) == 10 * high;
    }
  }

  function Pow10(n: nat): nat {
    if n == 0 then 1 else 10 * Pow10(n - 1)
  }

  lemma TenTimes(k: nat, n: nat, x: nat)
    requires x == k * Pow10(n)
    ensures k * Pow10(n + 1) == 10 * x
  {
  }

  // ----- What the panel shows -----

  lemma {:induction false} ListMarkersAppend(a: seq<Marker>, b: seq<Marker>)
    ensures ListMarkers(a + b) == ListMarkers(a) + ListMarkers(b)
  {
    if a == [] {
      assert a + b == b;
    } else {
      ListMarkersAppend(a[1..], b);
      assert (a + b)[1..] == a[1..] + b && (a + b)[0] == a[0];
      var head := if a[0].conversation.None? then [a[0]] else [];
      assert head + (ListMarkers(a[1..]) + ListMarkers(b)) == head + ListMarkers(a[1..]) + ListMarkers(b);
    }
  }

  /** A pointer marker, wherever it stands among the markers, changes nothing the panel shows. */
  lemma PointersAreIgnored(numLe: (string, string) -> bool, input: Input, a: seq<Marker>, pointer: Marker,
                           b: seq<Marker>)
    requires pointer.conversation.Some? && input.markers == a + [pointer] + b
    ensures PlanPanelState(numLe, input) == PlanPanelState(numLe, input.(markers := a + b))
  {
    ListMarkersAppend(a, b);
    ListMarkersAppend(a + [pointer], b);
    ListMarkersAppend(a, [pointer]);
    assert ListMarkers([pointer]) == [];
    assert ListMarkers(input.markers) == ListMarkers(a + b);
  }

  lemma {:induction false} UniqueHas(names: seq<string>, name: string)
    ensures name in Unique(names) <==> name in names
  {
    if names != [] {
      UniqueHas(names[..|names| - 1], name);
      assert names == names[..|names| - 1] + [names[|names| - 1]];
    }
  }

  lemma {:induction false} RunsAre(rows: seq<Row>, markers: seq<Marker>, run: string)
    ensures run in RunsOf(rows, markers)
       <==> ((exists r :: r in rows && RunOf(r.topic) == run) || (exists m :: m in markers && RunOf(m.topic) == run))
    decreases |rows| + |markers|
  {
    if rows != [] {
      RunsAre(rows[1..], markers, run);
      assert rows[0] in rows && forall r :: r in rows <==> r == rows[0] || r in rows[1..];
    } else if markers != [] {
      RunsAre([], markers[1..], run);
      assert markers[0] in markers && forall m :: m in markers <==> m == markers[0] || m in markers[1..];
    }
  }

  lemma RunsInOrderAre(numLe: (string, string) -> bool, input: Input, run: string)
    ensures run in RunsInOrder(numLe, input) <==> run in RunsOf(input.rows, ListMarkers(input.markers))
  {
    var runs := RunsOf(input.rows, ListMarkers(input.markers));
    UniqueHas(runs, run);
    Sorting.SortPermutes(numLe, Unique(runs));
    assert run in multiset(Unique(runs)) <==> run in multiset(RunsInOrder(numLe, input));
  }

  lemma {:induction false} MarkerFound(markers: seq<Marker>, run: string)
    ensures MarkerOf(markers, run).Some? <==> exists m :: m in markers && RunOf(m.topic) == run
  {
    if markers != [] {
      MarkerFound(markers[1..], run);
      assert markers[0] in markers && forall m :: m in markers <==> m == markers[0] || m in markers[1..];
    }
  }

  lemma {:induction false} AllCounted(rows: seq<Row>, run: string)
    ensures (exists r :: r in rows && RunOf(r.topic) == run) <==> Counted(InRun(rows, run), None) != []
  {
    if rows != [] {
      AllCounted(rows[1..], run);
      assert rows[0] in rows && forall r :: r in rows <==> r == rows[0] || r in rows[1..];
      if RunOf(rows[0].topic) == run {
        assert InRun(rows, run)[1..] == InRun(rows[1..], run);
      }
    }
  }

  /** A run is named as soon as there is a row or a list marker. */
  lemma RunsMeanRecords(numLe: (string, string) -> bool, input: Input)
    ensures RunsInOrder(numLe, input) == [] <==> input.rows == [] && ListMarkers(input.markers) == []
  {
    var markers := ListMarkers(input.markers);
    if input.rows != [] {
      RunsInOrderAre(numLe, input, RunOf(input.rows[0].topic));
    } else if markers != [] {
      RunsInOrderAre(numLe, input, RunOf(markers[0].topic));
    }
  }

  /** The last run, when no list marker names it, has a row, and every row of it is shown. */
  lemma UnmarkedRunHasRows(numLe: (string, string) -> bool, input: Input, run: string)
    requires run in RunsInOrder(numLe, input) && MarkerOf(ListMarkers(input.markers), run).None?
    ensures ShownRows(numLe, None, InRun(input.rows, run)) != []
  {
    RunsInOrderAre(numLe, input, run);
    RunsAre(input.rows, ListMarkers(input.markers), run);
    MarkerFound(ListMarkers(input.markers), run);
    AllCounted(input.rows, run);
    Sorting.SortPermutes(KeyLe(numLe), Counted(InRun(input.rows, run), None));
  }

  /** A row of `run` shows as `s`, and its place is below `count`, if there is a count. */
  predicate ShowsAs(r: Row, run: string, count: Option<int>, s: Shown) {
    var placed := s.key != "" && (forall i :: 0 <= i < |s.key| ==> '0' <= s.key[i] <= '9');
    && RunOf(r.topic) == run && s.key == KeyOf(r.topic) && s.title == r.title && s.status == r.status
    && (count.None? || (placed && NumberOf(s.key) < count.value))
  }

  /** How many rows of `run` below `count` show as `s`. */
  function Due(rows: seq<Row>, run: string, count: Option<int>, s: Shown): nat {
    if rows == [] then 0 else (if ShowsAs(rows[0], run, count, s) then 1 else 0) + Due(rows[1..], run, count, s)
  }

  lemma ShowsAsIs(r: Row, run: string, count: Option<int>, s: Shown)
    ensures ShowsAs(r, run, count, s) <==> RunOf(r.topic) == run && Below(KeyOf(r.topic), count) && ShownOf(r) == s
  {
  }

  lemma CountedNext(r: Row, rest: seq<Row>, count: Option<int>)
    ensures Counted([r] + rest, count)
         == (if Below(KeyOf(r.topic), count) then [ShownOf(r)] else []) + Counted(rest, count)
  {
    assert ([r] + rest)[1..] == rest;
  }

  lemma CountedOne(r: Row, rest: seq<Row>, count: Option<int>, s: Shown)
    ensures multiset(Counted([r] + rest, count))[s]
         == multiset(Counted(rest, count))[s] + (if Below(KeyOf(r.topic), count) && ShownOf(r) == s then 1 else 0)
  {
    CountedNext(r, rest, count);
    var x, counted := ShownOf(r), Counted(rest, count);
    assert multiset([x] + counted) == multiset{x} + multiset(counted) && [] + counted == counted;
  }

  lemma {:induction false} CountedAre(rows: seq<Row>, run: string, count: Option<int>, s: Shown)
    ensures multiset(Counted(InRun(rows, run), count))[s] == Due(rows, run, count, s)
  {
    if rows != [] {
      CountedAre(rows[1..], run, count, s);
      ShowsAsIs(rows[0], run, count, s);
      var rest := InRun(rows[1..], run);
      CountedOne(rows[0], rest, count, s);
      assert InRun(rows, run) == if RunOf(rows[0].topic) == run then [rows[0]] + rest else rest;
    }
  }

  lemma KeyLeOrders(numLe: (string, string) -> bool)
    requires Sorting.TotalPreorder(numLe)
    ensures Sorting.TotalPreorder(KeyLe(numLe))
  {
    var le := KeyLe(numLe);
    forall a, b ensures le(a, b) || le(b, a) {
      assert numLe(a.key, b.key) || numLe(b.key, a.key);
    }
    forall a, b, c | le(a, b) && le(b, c) ensures le(a, c) {
      assert numLe(a.key, b.key) && numLe(b.key, c.key);
    }
  }

  /** The panel of a record that names a run, as the plan of its last run. */
  lemma PanelIs(numLe: (string, string) -> bool, input: Input) returns (run: string)
    requires input.declared && input.turn.Some? && RunsInOrder(numLe, input) != []
    ensures run == RunsInOrder(numLe, input)[|RunsInOrder(numLe, input)| - 1]
    ensures PlanPanelState(numLe, input)
         == PlanOfRun(numLe, MarkerOf(ListMarkers(input.markers), run), InRun(input.rows, run),
                      input.turn, input.ended, input.conversation)
    ensures run in RunsOf(input.rows, ListMarkers(input.markers))
  {
    run := RunsInOrder(numLe, input)[|RunsInOrder(numLe, input)| - 1];
    RunsInOrderAre(numLe, input, run);
  }

  lemma {:induction false} PointersAlone(markers: seq<Marker>)
    ensures ListMarkers(markers) == [] <==> forall m :: m in markers ==> m.conversation.Some?
  {
    if markers != [] {
      PointersAlone(markers[1..]);
      assert markers[0] in markers && forall m :: m in markers <==> m == markers[0] || m in markers[1..];
    }
  }

  /**
   With the record declared and a turn there, the panel finds no plan exactly
   when there is no row and no list marker.
   */
  lemma NoPlanMeansNothingRecorded(numLe: (string, string) -> bool, input: Input)
    requires input.declared && input.turn.Some?
    ensures PlanPanelState(numLe, input).NoPlan?
      <==> input.rows == [] && forall m :: m in input.markers ==> m.conversation.Some?
  {
    RunsMeanRecords(numLe, input);
    PointersAlone(input.markers);
    if RunsInOrder(numLe, input) != [] {
      var run := PanelIs(numLe, input);
      var marker := MarkerOf(ListMarkers(input.markers), run);
      if marker.None? {
        UnmarkedRunHasRows(numLe, input, run);
      }
    }
  }

  lemma ShownRowsAre(numLe: (string, string) -> bool, rows: seq<Row>, run: string, marker: Option<Marker>)
    requires Sorting.TotalPreorder(numLe)
    ensures var shown := ShownRows(numLe, marker, InRun(rows, run));
      && Sorting.Sorted(KeyLe(numLe), shown)
      && forall s :: multiset(shown)[s] == Due(rows, run, CountOf(marker), s)
  {
    var counted := Counted(InRun(rows, run), CountOf(marker));
    KeyLeOrders(numLe);
    Sorting.SortSorts(KeyLe(numLe), counted);
    Sorting.SortPermutes(KeyLe(numLe), counted);
    forall s ensures multiset(counted)[s] == Due(rows, run, CountOf(marker), s) {
      CountedAre(rows, run, CountOf(marker), s);
    }
  }

  /**
   The rows shown are those of the named run last by number, each as often as
   it is recorded, none at or above the marker's count, in the order of their keys.
   */
  lemma ShowsTheLastRun(numLe: (string, string) -> bool, input: Input) returns (run: string, count: Option<int>)
    requires Sorting.TotalPreorder(numLe) && PlanPanelState(numLe, input).Rows?
    ensures RunsInOrder(numLe, input) != [] && run == RunsInOrder(numLe, input)[|RunsInOrder(numLe, input)| - 1]
    ensures var p, markers := PlanPanelState(numLe, input), ListMarkers(input.markers);
      && (forall s :: multiset(p.rows)[s] == Due(input.rows, run, count, s))
      && Sorting.Sorted(KeyLe(numLe), p.rows)
      && count == CountOf(MarkerOf(markers, run)) && run in RunsOf(input.rows, markers)
      && (forall r :: r in RunsOf(input.rows, markers) ==> numLe(r, run))
  {
    run := PanelIs(numLe, input);
    var marker := MarkerOf(ListMarkers(input.markers), run);
    count := CountOf(marker);
    assert PlanPanelState(numLe, input).rows == ShownRows(numLe, marker, InRun(input.rows, run));
    ShownRowsAre(numLe, input.rows, run, marker);
    LastRunIsLast(numLe, input);
  }

  // ----- The panel in the input's own terms -----

  /** The marker lists what `run` holds: it is no run's pointer to a conversation's plan. */
  predicate Lists(m: Marker, run: string) {
    m.conversation == None && RunOf(m.topic) == run
  }

  /** `marker` is the first of the run's list markers, if it has any. */
  ghost predicate IsMarkerOf(markers: seq<Marker>, run: string, marker: Option<Marker>) {
    && (marker.None? ==> forall m :: m in markers ==> !Lists(m, run))
    && (marker.Some? ==> exists i: nat :: IsFirstListing(markers, run, i) && markers[i] == marker.value)
  }

  ghost predicate IsFirstListing(markers: seq<Marker>, run: string, i: nat) {
    i < |markers| && Lists(markers[i], run) && forall j :: 0 <= j < i ==> !Lists(markers[j], run)
  }

  lemma {:induction false} MarkerIsFirst(markers: seq<Marker>, run: string)
    ensures IsMarkerOf(markers, run, MarkerOf(ListMarkers(markers), run))
  {
    if markers != [] {
      var rest := markers[1..];
      MarkerIsFirst(rest, run);
      assert markers[0] in markers && forall m :: m in markers <==> m == markers[0] || m in rest;
      var head := if markers[0].conversation.None? then [markers[0]] else [];
      assert ListMarkers(markers) == head + ListMarkers(rest);
      if Lists(markers[0], run) {
        assert IsFirstListing(markers, run, 0);
      } else {
        assert MarkerOf(ListMarkers(markers), run) == MarkerOf(ListMarkers(rest), run) by {
          assert head != [] ==> ListMarkers(markers)[1..] == ListMarkers(rest);
          assert head == [] ==> ListMarkers(markers) == ListMarkers(rest);
        }
        if i: nat :| IsFirstListing(rest, run, i) && Some(rest[i]) == MarkerOf(ListMarkers(rest), run) {
          assert IsFirstListing(markers, run, i + 1);
        }
      }
    }
  }

  /** Some row or list marker is of the run. */
  ghost predicate RunNamed(input: Input, run: string) {
    (exists r :: r in input.rows && RunOf(r.topic) == run) || (exists m :: m in input.markers && Lists(m, run))
  }

  /** No run that is named comes behind it. */
  ghost predicate IsLastRun(numLe: (string, string) -> bool, input: Input, run: string) {
    RunNamed(input, run) && forall r :: RunNamed(input, r) ==> numLe(r, run)
  }

  lemma {:induction false} ListMarkersAre(markers: seq<Marker>, m: Marker)
    ensures m in ListMarkers(markers) <==> m in markers && m.conversation == None
  {
    if markers != [] {
      ListMarkersAre(markers[1..], m);
      assert m in markers <==> m == markers[0] || m in markers[1..];
    }
  }

  lemma NamedIsListed(input: Input, run: string)
    ensures RunNamed(input, run) <==> run in RunsOf(input.rows, ListMarkers(input.markers))
  {
    var listed := ListMarkers(input.markers);
    RunsAre(input.rows, listed, run);
    forall m ensures m in listed <==> m in input.markers && m.conversation == None {
      ListMarkersAre(input.markers, m);
    }
  }

  /** Which panel it is, and which turn and scope it is labelled with when it shows no rows. */
  lemma PanelKind(numLe: (string, string) -> bool, input: Input)
    ensures var p := PlanPanelState(numLe, input);
      && (!input.declared <==> p.Undeclared?) && (p.Undeclared? ==> p.tag == input.tag)
      && (p.NoTurn? <==> input.declared && input.turn == None)
      && (p.NoPlan? || p.EmptyPlan? || p.Rows? ==> (p.scope == OfTurn <==> input.conversation == None))
      && (p.NoPlan? || p.EmptyPlan? ==> p.turn == if input.conversation == None then input.turn else None)
      && (p.Rows? && input.conversation == None ==> p.turn == input.turn)
  {
    if input.declared && input.turn.Some? && RunsInOrder(numLe, input) != [] {
      var run := PanelIs(numLe, input);
      var marker := MarkerOf(ListMarkers(input.markers), run);
      RunKind(numLe, marker, InRun(input.rows, run), input.turn, input.ended, input.conversation);
    }
  }

  lemma RunKind(numLe: (string, string) -> bool, marker: Option<Marker>, inRun: seq<Row>, latest: Option<nat>,
                ended: bool, conversation: Option<Conversation>)
    ensures var p := PlanOfRun(numLe, marker, inRun, latest, ended, conversation);
      && (p.NoPlan? || p.EmptyPlan? || p.Rows?) && (p.scope == OfTurn <==> conversation == None)
      && (p.NoPlan? || p.EmptyPlan? ==> p.turn == if conversation == None then latest else None)
      && (p.Rows? && conversation == None ==> p.turn == latest)
  {
  }

  /** What the rows say of themselves: why some of the plan is missing, if any is. */
  ghost predicate SaysWhy(incomplete: Option<Option<string>>, marker: Option<Marker>, input: Input) {
    var cutOff := marker.Some? && (marker.value.status == Some("incomplete")
                                   || (marker.value.status == Some("writing") && input.ended));
    && (cutOff ==> incomplete == Some(marker.value.reason))
    && (!cutOff && input.conversation.Some? && input.conversation.value.predates ==>
          incomplete == Some(Some("this conversation began before plans were kept across turns")))
    && (!cutOff && !(input.conversation.Some? && input.conversation.value.predates) ==> incomplete == None)
  }

  /**
   The whole panel of a record that names a run, in the input's own terms: the last
   run and its first list marker decide. A list its marker calls complete with no
   place is empty; any other shows the run's rows below the marker's count, each as
   often as recorded, by key, and why some of the plan is missing, if any is.
   */
  lemma PanelReads(numLe: (string, string) -> bool, input: Input) returns (run: string, marker: Option<Marker>)
    requires Sorting.TotalPreorder(numLe) && input.declared && input.turn.Some?
    requires input.rows != [] || exists m :: m in input.markers && m.conversation == None
    ensures IsLastRun(numLe, input, run) && IsMarkerOf(input.markers, run, marker)
    ensures var p, count := PlanPanelState(numLe, input), if marker.Some? then marker.value.count else None;
      && (p.EmptyPlan? || p.Rows?)
      && (p.EmptyPlan? <==> marker.Some? && marker.value.status == Some("complete") && count == Some(0))
      && (p.Rows? ==>
            && SaysWhy(p.incomplete, marker, input)
            && (forall s :: multiset(p.rows)[s] == Due(input.rows, run, count, s))
            && (forall i, j :: 0 <= i < j < |p.rows| ==> numLe(p.rows[i].key, p.rows[j].key)))
  {
    NoPlanMeansNothingRecorded(numLe, input);
    RunsMeanRecords(numLe, input);
    PointersAlone(input.markers);
    run := PanelIs(numLe, input);
    marker := MarkerOf(ListMarkers(input.markers), run);
    MarkerIsFirst(input.markers, run);
    LastRunIsLast(numLe, input);
    forall r ensures RunNamed(input, r) <==> r in RunsOf(input.rows, ListMarkers(input.markers)) {
      NamedIsListed(input, r);
    }
    WholeOrIncomplete(numLe, input, run);
    if PlanPanelState(numLe, input).Rows? {
      var run', count := ShowsTheLastRun(numLe, input);
    }
  }

  /** A count hides a shown form altogether or not at all, since the key alone decides. */
  lemma {:induction false} DueBelow(rows: seq<Row>, run: string, count: Option<int>, s: Shown)
    ensures Due(rows, run, count, s) == if Below(s.key, count) then Due(rows, run, None, s) else 0
  {
    if rows != [] {
      DueBelow(rows[1..], run, count, s);
    }
  }

  lemma {:induction false} RowIsDue(rows: seq<Row>, run: string, r: Row)
    requires r in rows && RunOf(r.topic) == run
    ensures Due(rows, run, None, ShownOf(r)) > 0
  {
    if rows[0] != r {
      RowIsDue(rows[1..], run, r);
    }
  }

  lemma {:induction false} DueIsARow(rows: seq<Row>, run: string, s: Shown) returns (r: Row)
    requires Due(rows, run, None, s) > 0
    ensures r in rows && RunOf(r.topic) == run && ShownOf(r) == s
  {
    if RunOf(rows[0].topic) == run && ShownOf(rows[0]) == s {
      r := rows[0];
    } else {
      r := DueIsARow(rows[1..], run, s);
    }
  }

  /**
   Every row recorded for the last run, the one shown, is shown exactly when each
   has a decimal place below the marker's count, or the marker counts none.
   */
  lemma ShowsEveryRow(numLe: (string, string) -> bool, input: Input) returns (run: string, count: Option<int>)
    requires Sorting.TotalPreorder(numLe) && PlanPanelState(numLe, input).Rows?
    ensures RunsInOrder(numLe, input) != [] && run == RunsInOrder(numLe, input)[|RunsInOrder(numLe, input)| - 1]
    ensures count == CountOf(MarkerOf(ListMarkers(input.markers), run))
    ensures run in RunsOf(input.rows, ListMarkers(input.markers))
    ensures forall r :: r in RunsOf(input.rows, ListMarkers(input.markers)) ==> numLe(r, run)
    ensures forall s :: multiset(PlanPanelState(numLe, input).rows)[s] == Due(input.rows, run, count, s)
    ensures (forall s :: multiset(PlanPanelState(numLe, input).rows)[s] == Due(input.rows, run, None, s))
       <==> (forall r :: r in input.rows && RunOf(r.topic) == run ==> Below(KeyOf(r.topic), count))
  {
    run, count := ShowsTheLastRun(numLe, input);
    var rows := PlanPanelState(numLe, input).rows;
    if forall s :: multiset(rows)[s] == Due(input.rows, run, None, s) {
      forall r | r in input.rows && RunOf(r.topic) == run ensures Below(KeyOf(r.topic), count) {
        RowIsDue(input.rows, run, r);
        DueBelow(input.rows, run, count, ShownOf(r));
        assert multiset(rows)[ShownOf(r)] == Due(input.rows, run, count, ShownOf(r));
      }
    }
    if forall r :: r in input.rows && RunOf(r.topic) == run ==> Below(KeyOf(r.topic), count) {
      forall s ensures multiset(rows)[s] == Due(input.rows, run, None, s) {
        DueBelow(input.rows, run, count, s);
        if Due(input.rows, run, None, s) > 0 {
          var r := DueIsARow(input.rows, run, s);
        }
      }
    }
  }

  /** The markers as they read once the turn has ended: a list still being written is incomplete. */
  function Ended(markers: seq<Marker>): seq<Marker> {
    if markers == [] then []
    else
      [markers[0].(status := if markers[0].status == Some("writing") then Some("incomplete") else markers[0].status)]
      + Ended(markers[1..])
  }

  lemma {:induction false} EndedReads(markers: seq<Marker>, run: string)
    ensures ListMarkers(Ended(markers)) == Ended(ListMarkers(markers))
    ensures RunsOf([], Ended(markers)) == RunsOf([], markers)
    ensures MarkerOf(Ended(markers), run).Some? == MarkerOf(markers, run).Some?
    ensures MarkerOf(markers, run).Some? ==>
      var m, m' := MarkerOf(markers, run).value, MarkerOf(Ended(markers), run).value;
      m' == m.(status := if m.status == Some("writing") then Some("incomplete") else m.status)
  {
    if markers != [] {
      EndedReads(markers[1..], run);
      var head := Ended([markers[0]]);
      assert Ended(markers)[1..] == Ended(markers[1..]);
      assert ListMarkers(markers)
          == (if markers[0].conversation.None? then [markers[0]] else []) + ListMarkers(markers[1..]);
      if markers[0].conversation.None? {
        assert ListMarkers(markers)[1..] == ListMarkers(markers[1..]);
      } else {
        assert ListMarkers(markers) == ListMarkers(markers[1..]);
        assert ListMarkers(Ended(markers)) == ListMarkers(Ended(markers[1..]));
      }
    }
  }

  lemma {:induction false} RunsOfSplit(rows: seq<Row>, markers: seq<Marker>)
    ensures RunsOf(rows, markers) == RunsOf(rows, []) + RunsOf([], markers)
  {
    if rows != [] {
      RunsOfSplit(rows[1..], markers);
    }
  }

  /** After the turn has ended, a marker still writing shows exactly as an incomplete one does. */
  lemma WritingAfterTheEndIsIncomplete(numLe: (string, string) -> bool, input: Input)
    requires input.ended
    ensures PlanPanelState(numLe, input) == PlanPanelState(numLe, input.(markers := Ended(input.markers)))
  {
    EndedReads(input.markers, "");
    EndedPlan(numLe, input.rows, ListMarkers(input.markers), input.turn, input.conversation);
  }

  lemma EndedRuns(numLe: (string, string) -> bool, rows: seq<Row>, markers: seq<Marker>)
    ensures OrderedRuns(numLe, rows, Ended(markers)) == OrderedRuns(numLe, rows, markers)
  {
    EndedReads(markers, "");
    RunsOfSplit(rows, markers);
    RunsOfSplit(rows, Ended(markers));
  }

  lemma PlanOfSplit(numLe: (string, string) -> bool, rows: seq<Row>, markers: seq<Marker>, latest: Option<nat>,
                    ended: bool,
                    conversation: Option<Conversation>, runs: seq<string>)
    requires runs == OrderedRuns(numLe, rows, markers)
    ensures PlanOf(numLe, rows, markers, latest, ended, conversation)
         == if runs == [] then Unplanned(latest, conversation)
            else var run := runs[|runs| - 1];
              PlanOfRun(numLe, MarkerOf(markers, run), InRun(rows, run), latest, ended, conversation)
  {
  }

  lemma EndedPlan(numLe: (string, string) -> bool, rows: seq<Row>, markers: seq<Marker>, latest: Option<nat>,
                  conversation: Option<Conversation>)
    ensures PlanOf(numLe, rows, Ended(markers), latest, true, conversation)
         == PlanOf(numLe, rows, markers, latest, true, conversation)
  {
    var runs := OrderedRuns(numLe, rows, markers);
    EndedRuns(numLe, rows, markers);
    PlanOfSplit(numLe, rows, markers, latest, true, conversation, runs);
    PlanOfSplit(numLe, rows, Ended(markers), latest, true, conversation, runs);
    if runs != [] {
      var run := runs[|runs| - 1];
      var m, m' := MarkerOf(markers, run), MarkerOf(Ended(markers), run);
      EndedReads(markers, run);
      EndedRun(numLe, m, m', InRun(rows, run), latest, conversation);
    }
  }

  lemma EndedRun(numLe: (string, string) -> bool, m: Option<Marker>, m': Option<Marker>, inRun: seq<Row>,
                 latest: Option<nat>,
                 conversation: Option<Conversation>)
    requires m.Some? == m'.Some?
    requires m.Some? ==>
      m'.value == m.value.(status := if m.value.status == Some("writing") then Some("incomplete") else m.value.status)
    ensures PlanOfRun(numLe, m', inRun, latest, true, conversation)
         == PlanOfRun(numLe, m, inRun, latest, true, conversation)
  {
    assert "writing"[0] != "incomplete"[0] && "complete"[0] != "incomplete"[0] && "complete"[0] != "writing"[0];
  }

  /** The input as if its conversation did not predate kept plans. */
  function NotPredating(input: Input): Input
    requires input.conversation.Some?
  {
    input.(conversation := Some(input.conversation.value.(predates := false)))
  }

  /** Rows with no reason to be incomplete are given the one of predating. */
  function WithPredates(p: Panel): Panel {
    if p.Rows? && p.incomplete.None? then p.(incomplete := Some(Some(PREDATES_REASON))) else p
  }

  /**
   That a conversation predates kept plans adds its reason to a list with none of
   its own, and changes nothing else.
   */
  lemma PredatingOnlyAddsAReason(numLe: (string, string) -> bool, input: Input)
    requires input.conversation.Some? && input.conversation.value.predates
    ensures PlanPanelState(numLe, input) == WithPredates(PlanPanelState(numLe, NotPredating(input)))
  {
    var markers, runs, kept := ListMarkers(input.markers), RunsInOrder(numLe, input), NotPredating(input).conversation;
    PlanOfSplit(numLe, input.rows, markers, input.turn, input.ended, input.conversation, runs);
    PlanOfSplit(numLe, input.rows, markers, input.turn, input.ended, kept, runs);
    if runs != [] {
      var run := runs[|runs| - 1];
      var m, inRun := MarkerOf(markers, run), InRun(input.rows, run);
      PredatingRun(numLe, m, inRun, input.turn, input.ended, input.conversation.value);
    }
  }

  lemma PredatingRun(numLe: (string, string) -> bool, m: Option<Marker>, inRun: seq<Row>, latest: Option<nat>,
                     ended: bool, c: Conversation)
    requires c.predates
    ensures PlanOfRun(numLe, m, inRun, latest, ended, Some(c))
         == WithPredates(PlanOfRun(numLe, m, inRun, latest, ended, Some(c.(predates := false))))
  {
  }

  lemma LastRunIsLast(numLe: (string, string) -> bool, input: Input)
    requires Sorting.TotalPreorder(numLe) && RunsInOrder(numLe, input) != []
    ensures var runs := RunsInOrder(numLe, input);
      forall r :: r in RunsOf(input.rows, ListMarkers(input.markers)) ==> numLe(r, runs[|runs| - 1])
  {
    var runs := RunsInOrder(numLe, input);
    Sorting.SortSorts(numLe, Unique(RunsOf(input.rows, ListMarkers(input.markers))));
    forall r | r in RunsOf(input.rows, ListMarkers(input.markers)) ensures numLe(r, runs[|runs| - 1]) {
      RunsInOrderAre(numLe, input, r);
      var i :| 0 <= i < |runs| && runs[i] == r;
      assert numLe(r, r);
    }
  }

  lemma {:induction false} MaxIsMost(ns: seq<nat>)
    requires ns != []
    ensures Max(ns) in ns && forall n :: n in ns ==> n <= Max(ns)
  {
    if |ns| > 1 {
      MaxIsMost(ns[1..]);
      assert forall n :: n in ns <==> n == ns[0] || n in ns[1..];
    }
  }

  /** `r` is a row of `run` last written by the turn numbered `n`. */
  predicate WroteAt(r: Row, run: string, turns: map<string, nat>, n: nat) {
    RunOf(r.topic) == run && r.requestId.Some? && r.requestId.value in turns && turns[r.requestId.value] == n
  }

  lemma {:induction false} ChangedInAre(rows: seq<Row>, run: string, turns: map<string, nat>, n: nat)
    ensures n in ChangedIn(InRun(rows, run), turns)
       <==> exists r :: r in rows && WroteAt(r, run, turns, n)
  {
    if rows != [] {
      ChangedInAre(rows[1..], run, turns, n);
      assert forall r :: r in rows <==> r == rows[0] || r in rows[1..];
      var rest := InRun(rows[1..], run);
      if RunOf(rows[0].topic) == run {
        assert InRun(rows, run) == [rows[0]] + rest && ([rows[0]] + rest)[1..] == rest;
      } else {
        assert InRun(rows, run) == rest;
      }
      assert n in ChangedIn(InRun(rows, run), turns)
        <==> WroteAt(rows[0], run, turns, n) || n in ChangedIn(rest, turns);
    }
  }

  /**
   Rows are shown as a whole plan exactly when the last run's marker, if any, does
   not say otherwise and no earlier turns may be missing; a turn's plan is labelled
   with the latest turn. An empty plan is one its marker calls complete with no place.
   */
  lemma WholeOrIncomplete(numLe: (string, string) -> bool, input: Input, run: string)
    requires input.declared && input.turn.Some? && RunsInOrder(numLe, input) != []
    requires run == RunsInOrder(numLe, input)[|RunsInOrder(numLe, input)| - 1]
    ensures var p, marker := PlanPanelState(numLe, input), MarkerOf(ListMarkers(input.markers), run);
      && (p.EmptyPlan? <==> marker.Some? && marker.value.status == Some("complete") && marker.value.count == Some(0))
      && (p.Rows? ==> (p.incomplete.None? <==>
            !Unfinished(marker, input.ended) && (input.conversation.None? || !input.conversation.value.predates)))
      && (p.Rows? && Unfinished(marker, input.ended) ==> p.incomplete == Some(marker.value.reason))
      && (p.Rows? && input.conversation.None? ==> p.turn == input.turn)
  {
    var _ := PanelIs(numLe, input);
  }

  /** What a writer records of a list: one of three words, or none. */
  predicate IsListStatus(status: Option<string>) {
    status in {None, Some("writing"), Some("complete"), Some("incomplete")}
  }

  /**
   Once the turn has ended, rows shown as a whole plan, or a plan shown empty,
   stand under no marker, one with no status, or one the writer called complete.
   */
  lemma WholeMeansComplete(numLe: (string, string) -> bool, input: Input) returns (run: string)
    requires input.declared && input.turn.Some? && input.ended && RunsInOrder(numLe, input) != []
    requires forall m :: m in ListMarkers(input.markers) ==> IsListStatus(m.status)
    ensures run == RunsInOrder(numLe, input)[|RunsInOrder(numLe, input)| - 1]
    ensures run in RunsOf(input.rows, ListMarkers(input.markers))
    ensures var p, marker := PlanPanelState(numLe, input), MarkerOf(ListMarkers(input.markers), run);
      p.EmptyPlan? || (p.Rows? && p.incomplete.None?) ==>
        marker.None? || marker.value.status in {None, Some("complete")}
  {
    run := PanelIs(numLe, input);
    WholeOrIncomplete(numLe, input, run);
    MarkerIsListed(ListMarkers(input.markers), run);
  }

  lemma {:induction false} MarkerIsListed(markers: seq<Marker>, run: string)
    ensures MarkerOf(markers, run).Some? ==> MarkerOf(markers, run).value in markers
  {
    if markers != [] {
      MarkerIsListed(markers[1..], run);
    }
  }

  /** A conversation's plan is labelled with the latest turn known to have written one of the last run's rows. */
  lemma LabelledByTheLastChange(numLe: (string, string) -> bool, input: Input, r: Row, n: nat) returns (run: string)
    requires PlanPanelState(numLe, input).Rows? && input.conversation.Some?
    ensures RunsInOrder(numLe, input) != [] && run == RunsInOrder(numLe, input)[|RunsInOrder(numLe, input)| - 1]
    ensures var shown, turns := PlanPanelState(numLe, input).turn, input.conversation.value.turns;
      && (r in input.rows && WroteAt(r, run, turns, n) ==> shown.Some? && n <= shown.value)
      && (shown.Some? ==> exists q :: q in input.rows && WroteAt(q, run, turns, shown.value))
  {
    run := PanelIs(numLe, input);
    var turns := input.conversation.value.turns;
    var changedIn := ChangedIn(InRun(input.rows, run), turns);
    assert PlanPanelState(numLe, input).turn == LastChange(InRun(input.rows, run), turns);
    ChangedInAre(input.rows, run, turns, n);
    if changedIn != [] {
      MaxIsMost(changedIn);
      ChangedInAre(input.rows, run, turns, Max(changedIn));
    }
  }
}
