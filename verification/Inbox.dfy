/**
 The capture inbox. A capture looks its fingerprint's key up and, unless a
 pending record is there, writes one: two steps, between which other captures
 and the sweeper may run.
 */
module Inbox {
  import opened Wrappers
  import Sorting
  import M = Mailroom

  datatype Status = Pending | Swept

  /** A stored row; `context` and the missing options are the shape from before the rename. */
  datatype Record = Record(kind: M.Kind, content: string, situation: Option<string>, context: Option<string>,
                           conversationId: Option<string>, capturedAt: string, occurredAt: Option<string>,
                           source: Option<string>, status: Status, fingerprint: string)

  /** The record holds every field of the capture as it came. */
  ghost predicate Keeps(r: Record, input: M.Capture) {
    && r.kind == input.kind && r.content == input.content
    && r.situation == Some(input.situation) && r.context == None && r.conversationId == Some(input.conversationId)
    && r.occurredAt == input.occurredAt && r.source == input.source
  }

  datatype Answer = Answer(id: string, capturedAt: string, deduplicated: bool)

  /** Lower-casing and the digest, which the fingerprint is computed with. */
  datatype Hashing = Hashing(lower: char -> string, digest: string -> string)

  // ----- Keys and ids -----

  const PREFIX := "inbox"

  function KeyOf(kind: M.Kind, fingerprint: string): string {
    kind.Text() + "/" + fingerprint
  }

  function PathOf(key: string): string {
    PREFIX + "/" + key
  }

  function IdOf(path: string, prefix: string): string {
    var lead := prefix + "/";
    if lead <= path then path[|lead|..] else path
  }

  /** A stored path gives its key back as the id. */
  lemma IdIsTheKey(key: string)
    ensures IdOf(PathOf(key), PREFIX) == key
  {
    assert PREFIX + "/" <= PathOf(key);
  }

  function SlashAt(s: string): nat {
    if s == [] || s[0] == '/' then 0 else 1 + SlashAt(s[1..])
  }

  lemma {:induction false} SlashIsAt(a: string, b: string)
    requires '/' !in a
    ensures SlashAt(a + "/" + b) == |a|
  {
    if a != [] {
      SlashIsAt(a[1..], b);
      assert (a + "/" + b)[1..] == a[1..] + "/" + b && (a + "/" + b)[0] == a[0];
    }
  }

  lemma SlashAfter(a: string, b: string, a': string, b': string)
    requires '/' !in a && '/' !in a' && a + "/" + b == a' + "/" + b'
    ensures a == a' && b == b'
  {
    SlashIsAt(a, b);
    SlashIsAt(a', b');
    var s := a + "/" + b;
    assert a == s[..|a|] && b == s[|a| + 1..] && a' == s[..|a'|] && b' == s[|a'| + 1..];
  }

  /** A key names one kind and one fingerprint, and a kind's prefix selects just its keys. */
  lemma KeysAreInjective(kind: M.Kind, fingerprint: string, kind': M.Kind, fingerprint': string)
    ensures KeyOf(kind, fingerprint) == KeyOf(kind', fingerprint') <==> kind == kind' && fingerprint == fingerprint'
    ensures kind'.Text() + "/" <= KeyOf(kind, fingerprint) <==> kind == kind'
  {
    M.KindTextsDiffer(kind, kind');
    if KeyOf(kind, fingerprint) == KeyOf(kind', fingerprint') {
      SlashAfter(kind.Text(), fingerprint, kind'.Text(), fingerprint');
    }
    var lead, key := kind'.Text() + "/", KeyOf(kind, fingerprint);
    if lead <= key {
      assert key == kind'.Text() + "/" + key[|lead|..];
      SlashAfter(kind.Text(), fingerprint, kind'.Text(), key[|lead|..]);
    }
  }

  // ----- The two steps of a capture, and a sweep -----

  function FingerprintOf(h: Hashing, input: M.Capture): string {
    M.Fingerprint(h.lower, h.digest, input)
  }

  function CaptureKey(h: Hashing, input: M.Capture): string {
    KeyOf(input.kind, FingerprintOf(h, input))
  }

  function Fresh(h: Hashing, input: M.Capture, now: string): Record {
    Record(input.kind, input.content, Some(input.situation), None, Some(input.conversationId), now,
           input.occurredAt, input.source, Pending, FingerprintOf(h, input))
  }

  type Records = map<string, Record>

  predicate IsPending(records: Records, key: string) {
    key in records && records[key].status == Pending
  }

  /** The store and the captures, by call, whose lookup found no pending record. */
  datatype State = State(records: Records, missed: map<nat, M.Capture>)

  datatype Event =
    | Look(call: nat, input: M.Capture)
    | Write(call: nat, now: string)
    | Sweep(key: string)

  predicate Enabled(s: State, e: Event) {
    match e
    case Look(call, _) => call !in s.missed
    case Write(call, _) => call in s.missed
    case Sweep(key) => IsPending(s.records, key)
  }

  function Next(h: Hashing, s: State, e: Event): State
    requires Enabled(s, e)
  {
    match e
    case Look(call, input) =>
      if IsPending(s.records, CaptureKey(h, input)) then s else s.(missed := s.missed[call := input])
    case Write(call, now) =>
      var input := s.missed[call];
      State(s.records[CaptureKey(h, input) := Fresh(h, input, now)], s.missed - {call})
    case Sweep(key) => s.(records := s.records[key := s.records[key].(status := Swept)])
  }

  /** What the step answers its caller, if it ends a call. */
  function Reply(h: Hashing, s: State, e: Event): Option<Answer>
    requires Enabled(s, e)
  {
    match e
    case Look(_, input) =>
      var key := CaptureKey(h, input);
      if IsPending(s.records, key)
      then Some(Answer(IdOf(PathOf(key), PREFIX), s.records[key].capturedAt, true)) else None
    case Write(call, now) => Some(Answer(IdOf(PathOf(CaptureKey(h, s.missed[call])), PREFIX), now, false))
    case Sweep(_) => None
  }

  /** The capture a step answers. */
  function Answered(s: State, e: Event): M.Capture
    requires Enabled(s, e) && !e.Sweep?
  {
    if e.Look? then e.input else s.missed[e.call]
  }

  class Store {
    var records: Records

    constructor ()
      ensures records == map[]
    {
      records := map[];
    }

    /** The first step: a pending record under the key is the answer, and nothing is written. */
    method LookUp(h: Hashing, input: M.Capture) returns (answer: Option<Answer>)
      ensures forall call :: answer == Reply(h, State(records, map[]), Look(call, input))
    {
      var key := CaptureKey(h, input);
      if key in records {
        var existing := records[key];
        if existing.status == Pending {
          return Some(Answer(IdOf(PathOf(key), PREFIX), existing.capturedAt, true));
        }
      }
      answer := None;
    }

    /** The second step: create, or replace whatever stands there by now. */
    method Create(h: Hashing, input: M.Capture, now: string) returns (answer: Answer)
      modifies this
      ensures forall call :: (var s := State(old(records), map[call := input]);
        && records == Next(h, s, Write(call, now)).records
        && Reply(h, s, Write(call, now)) == Some(answer))
      ensures var key := input.kind.Text() + "/" + FingerprintOf(h, input);
        && key in records && records - {key} == old(records) - {key}
        && Keeps(records[key], input) && records[key].fingerprint == FingerprintOf(h, input)
        && records[key].status == Pending && records[key].capturedAt == now == answer.capturedAt
        && "inbox/" + answer.id == PathOf(key) && !answer.deduplicated
    {
      IdIsTheKey(CaptureKey(h, input));
      var key := CaptureKey(h, input);
      var path := PathOf(key);
      records := records[key := Fresh(h, input, now)];
      answer := Answer(IdOf(path, PREFIX), now, false);
    }

    /** A capture nothing runs between: a pending twin answers, and otherwise one record is put and named. */
    method LogActivity(h: Hashing, input: M.Capture, now: string) returns (answer: Answer)
      modifies this
      ensures IsPending(records, answer.id) && answer.id == CaptureKey(h, input)
      ensures answer.capturedAt == records[answer.id].capturedAt
      ensures answer.deduplicated == IsPending(old(records), answer.id)
      ensures answer.deduplicated ==> records == old(records)
      ensures !answer.deduplicated ==> records == old(records)[answer.id := Fresh(h, input, now)]
    {
      IdIsTheKey(CaptureKey(h, input));
      var found := LookUp(h, input);
      assert found == Reply(h, State(records, map[]), Look(0, input));
      if found.Some? {
        return found.value;
      }
      ghost var before := records;
      answer := Create(h, input, now);
      assert Reply(h, State(before, map[0 := input]), Write(0, now)) == Some(answer);
      assert records == Next(h, State(before, map[0 := input]), Write(0, now)).records;
    }
  }

  // ----- Over every run -----

  ghost predicate StepAt(h: Hashing, states: seq<State>, events: seq<Event>, i: nat)
    requires |states| == |events| + 1 && i < |events|
  {
    Enabled(states[i], events[i]) && states[i + 1] == Next(h, states[i], events[i])
  }

  ghost predicate Run(h: Hashing, states: seq<State>, events: seq<Event>) {
    && |states| == |events| + 1
    && forall i :: 0 <= i < |events| ==> StepAt(h, states, events, i)
  }

  /** The capture a record keeps. */
  function CaptureOf(r: Record): M.Capture
    requires r.situation.Some? && r.conversationId.Some?
  {
    M.Capture(r.conversationId.value, r.kind, r.content, r.situation.value, r.occurredAt, r.source)
  }

  /** The record stands under the key of its own kind and fingerprint, and the fingerprint is that of its own fields. */
  ghost predicate Owns(h: Hashing, key: string, r: Record) {
    && r.situation.Some? && r.conversationId.Some?
    && r.fingerprint == FingerprintOf(h, CaptureOf(r)) && key == KeyOf(r.kind, r.fingerprint)
  }

  ghost predicate AllOwn(h: Hashing, records: Records) {
    forall key :: key in records ==> Owns(h, key, records[key])
  }

  lemma StepOwns(h: Hashing, s: State, e: Event)
    requires Enabled(s, e) && AllOwn(h, s.records)
    ensures AllOwn(h, Next(h, s, e).records)
  {
    var s' := Next(h, s, e);
    forall key | key in s'.records ensures Owns(h, key, s'.records[key]) {
      assert key in s.records ==> Owns(h, key, s.records[key]);
    }
  }

  lemma {:induction false} RunOwns(h: Hashing, states: seq<State>, events: seq<Event>, i: nat)
    requires Run(h, states, events) && i < |states| && AllOwn(h, states[0].records)
    ensures AllOwn(h, states[i].records)
  {
    if i > 0 {
      RunOwns(h, states, events, i - 1);
      assert StepAt(h, states, events, i - 1);
      StepOwns(h, states[i - 1], events[i - 1]);
    }
  }

  /** A record keeps the capture of an earlier lookup, as the write of the same call put it at its own time. */
  ghost predicate Verbatim(events: seq<Event>, i: nat, r: Record)
    requires i <= |events|
  {
    exists k, m :: 0 <= k < m < i && PutBy(events[k], events[m], r)
  }

  ghost predicate PutBy(look: Event, write: Event, r: Record) {
    && look.Look? && write.Write? && look.call == write.call
    && Keeps(r, look.input) && r.capturedAt == write.now
  }

  /** The capture a call found no record of is the one it looked up. */
  lemma {:induction false} MissedWasLooked(h: Hashing, states: seq<State>, events: seq<Event>, i: nat, call: nat)
    requires Run(h, states, events) && states[0] == State(map[], map[]) && i < |states| && call in states[i].missed
    ensures exists k :: 0 <= k < i && events[k] == Look(call, states[i].missed[call])
    decreases i
  {
    if i > 0 {
      assert StepAt(h, states, events, i - 1);
      if call in states[i - 1].missed {
        MissedWasLooked(h, states, events, i - 1, call);
      } else {
        assert events[i - 1] == Look(call, states[i].missed[call]);
      }
    }
  }

  /** Nothing is made up or lost on the way: every record of every run is a capture as it came. */
  lemma {:induction false} RecordsAreVerbatim(h: Hashing, states: seq<State>, events: seq<Event>, i: nat, key: string)
    requires Run(h, states, events) && states[0] == State(map[], map[]) && i < |states| && key in states[i].records
    ensures Verbatim(events, i, states[i].records[key])
    decreases i
  {
    if i > 0 {
      var s, e := states[i - 1], events[i - 1];
      assert StepAt(h, states, events, i - 1);
      if e.Write? && key == CaptureKey(h, s.missed[e.call]) {
        MissedWasLooked(h, states, events, i - 1, e.call);
        var k :| 0 <= k < i - 1 && events[k] == Look(e.call, s.missed[e.call]);
        assert PutBy(events[k], events[i - 1], states[i].records[key]);
      } else {
        RecordsAreVerbatim(h, states, events, i - 1, key);
        var k, m :| 0 <= k < m < i - 1 && PutBy(events[k], events[m], s.records[key]);
        assert PutBy(events[k], events[m], states[i].records[key]);
      }
    }
  }

  /** One record per kind and fingerprint, however captures and sweeps interleave. */
  lemma OneRecordEach(h: Hashing, states: seq<State>, events: seq<Event>, i: nat, key: string, key': string)
    requires Run(h, states, events) && i < |states| && states[0].records == map[]
    requires key in states[i].records && key' in states[i].records
    ensures Owns(h, key, states[i].records[key])
    ensures (states[i].records[key].kind == states[i].records[key'].kind
             && states[i].records[key].fingerprint == states[i].records[key'].fingerprint)
        <==> key == key'
  {
    RunOwns(h, states, events, i);
    assert Owns(h, key, states[i].records[key]) && Owns(h, key', states[i].records[key']);
  }

  /** No step takes a record away, and a step that ends a key's pending state is a sweep of that key. */
  lemma OnlySweepEndsPending(h: Hashing, s: State, e: Event, key: string)
    requires Enabled(s, e) && key in s.records
    ensures key in Next(h, s, e).records
    ensures IsPending(s.records, key) && !IsPending(Next(h, s, e).records, key) <==> e == Sweep(key)
  {
  }

  lemma {:induction false} StaysPending(h: Hashing, states: seq<State>, events: seq<Event>, key: string, i: nat, j: nat)
    requires Run(h, states, events) && i <= j < |states| && IsPending(states[i].records, key)
    requires forall k :: i <= k < j ==> events[k] != Sweep(key)
    ensures IsPending(states[j].records, key)
  {
    if i < j {
      StaysPending(h, states, events, key, i, j - 1);
      assert StepAt(h, states, events, j - 1);
      OnlySweepEndsPending(h, states[j - 1], events[j - 1], key);
    }
  }

  /** An answer names the record of its own capture, which is pending when it is given. */
  lemma AnswerNamesTheRecord(h: Hashing, s: State, e: Event)
    requires Enabled(s, e) && AllOwn(h, s.records) && Reply(h, s, e).Some?
    ensures !e.Sweep?
    ensures var a, r := Answered(s, e), Next(h, s, e).records;
      var id := Reply(h, s, e).value.id;
      && id == CaptureKey(h, a) && IsPending(r, id)
      && r[id].capturedAt == Reply(h, s, e).value.capturedAt
      && r[id].kind == a.kind && r[id].fingerprint == FingerprintOf(h, a)
  {
    var key := CaptureKey(h, Answered(s, e));
    IdIsTheKey(key);
    if e.Look? {
      assert Owns(h, key, s.records[key]);
      KeysAreInjective(s.records[key].kind, s.records[key].fingerprint, e.input.kind, FingerprintOf(h, e.input));
    }
  }

  lemma SameKey(h: Hashing, a: M.Capture, b: M.Capture)
    requires M.SameCapture(h.lower, a, b)
    ensures CaptureKey(h, a) == CaptureKey(h, b)
  {
    M.SameFields(h.lower, a, b);
  }

  /** Step `i` answers a capture and names `id`, and no sweep of it runs from then to `j`. */
  ghost predicate AnsweredUnswept(h: Hashing, states: seq<State>, events: seq<Event>, i: nat, j: nat, id: string) {
    && Run(h, states, events) && states[0].records == map[] && i < j < |states|
    && Enabled(states[i], events[i]) && !events[i].Sweep?
    && Reply(h, states[i], events[i]).Some? && Reply(h, states[i], events[i]).value.id == id
    && forall k :: i < k < j ==> events[k] != Sweep(id)
  }

  /** Until a sweep, the record an answer names is pending and of the answered capture's fingerprint. */
  lemma AnswerStands(h: Hashing, states: seq<State>, events: seq<Event>, i: nat, j: nat, id: string)
    requires AnsweredUnswept(h, states, events, i, j, id)
    ensures id == CaptureKey(h, Answered(states[i], events[i]))
    ensures IsPending(states[j].records, id) && Owns(h, id, states[j].records[id])
    ensures states[j].records[id].fingerprint == FingerprintOf(h, Answered(states[i], events[i]))
  {
    var a := Answered(states[i], events[i]);
    RunOwns(h, states, events, i);
    RunOwns(h, states, events, j);
    assert StepAt(h, states, events, i);
    AnswerNamesTheRecord(h, states[i], events[i]);
    StaysPending(h, states, events, id, i + 1, j);
    var r := states[j].records[id];
    assert Owns(h, id, r);
    KeysAreInjective(r.kind, r.fingerprint, a.kind, FingerprintOf(h, a));
  }

  /**
   Retrying an answered capture before its record is swept is harmless, whatever
   ran in between: the lookup answers the same id as a duplicate and the store is
   unchanged.
   */
  lemma RetryIsHarmless(h: Hashing, states: seq<State>, events: seq<Event>, i: nat, j: nat, id: string)
    requires AnsweredUnswept(h, states, events, i, j, id) && j < |events|
    requires events[j].Look? && M.SameCapture(h.lower, Answered(states[i], events[i]), events[j].input)
    ensures states[j + 1] == states[j] && Enabled(states[j], events[j])
    ensures var retry := Reply(h, states[j], events[j]);
      retry.Some? && retry.value.deduplicated && retry.value.id == id
  {
    assert StepAt(h, states, events, j);
    AnswerStands(h, states, events, i, j, id);
    SameKey(h, Answered(states[i], events[i]), events[j].input);
    IdIsTheKey(id);
  }

  /**
   What an answered capture finds under its id until a sweep: a pending record of
   the same capture, given conversation ids of equally many newlines, or a digest
   collision.
   */
  lemma CaptureIsKept(h: Hashing, states: seq<State>, events: seq<Event>, i: nat, j: nat, id: string)
    requires AnsweredUnswept(h, states, events, i, j, id) && M.LowerCasing(h.lower)
    ensures IsPending(states[j].records, id) && Owns(h, id, states[j].records[id])
    ensures var a, b := Answered(states[i], events[i]), CaptureOf(states[j].records[id]);
      M.IsTimeLine(a) && M.IsTimeLine(b) && M.Newlines(a.conversationId) == M.Newlines(b.conversationId) ==>
        (M.SameCapture(h.lower, a, b)
         || (M.Tuple(h.lower, a) != M.Tuple(h.lower, b)
             && h.digest(M.Tuple(h.lower, a)) == h.digest(M.Tuple(h.lower, b))))
  {
    AnswerStands(h, states, events, i, j, id);
    var a, b := Answered(states[i], events[i]), CaptureOf(states[j].records[id]);
    if M.IsTimeLine(a) && M.IsTimeLine(b) && M.Newlines(a.conversationId) == M.Newlines(b.conversationId) {
      M.FingerprintIsTheCapture(h.lower, h.digest, a, b);
    }
  }

  // ----- Reading the inbox back -----

  datatype Ref = Ref(path: string, state: Record)

  datatype Item = Item(id: string, kind: M.Kind, content: string, situation: string, conversationId: Option<string>,
                       capturedAt: string, status: Status)

  datatype Listing = Listing(items: seq<Item>, totalPending: nat, oldest: Option<string>)

  function PendingOf(refs: seq<Ref>): seq<Ref> {
    if refs == [] then []
    else (if refs[0].state.status == Pending then [refs[0]] else []) + PendingOf(refs[1..])
  }

  /** Newest first. */
  function NewerFirst(timeLe: (string, string) -> bool): (Ref, Ref) -> bool {
    (a: Ref, b: Ref) => timeLe(b.state.capturedAt, a.state.capturedAt)
  }

  /** A row from before the rename has its `context` for a situation, and no conversation. */
  function ItemOf(r: Ref): Item {
    Item(IdOf(r.path, PREFIX), r.state.kind, r.state.content,
         if r.state.situation.Some? then r.state.situation.value
         else if r.state.context.Some? then r.state.context.value
         else "",
         r.state.conversationId, r.state.capturedAt, r.state.status)
  }

  /** The item says what the row says, under the path without `inbox/`. */
  ghost predicate Says(item: Item, r: Ref) {
    && ("inbox/" <= r.path ==> r.path == "inbox/" + item.id)
    && (!("inbox/" <= r.path) ==> item.id == r.path)
    && item.kind == r.state.kind && item.content == r.state.content
    && (r.state.situation.Some? ==> item.situation == r.state.situation.value)
    && (r.state.situation.None? && r.state.context.Some? ==> item.situation == r.state.context.value)
    && (r.state.situation.None? && r.state.context.None? ==> item.situation == "")
    && item.conversationId == r.state.conversationId
    && item.capturedAt == r.state.capturedAt && item.status == r.state.status
  }

  lemma ItemSays(r: Ref)
    ensures Says(ItemOf(r), r)
  {
    assert PREFIX + "/" == "inbox/";
  }

  function ItemsOf(refs: seq<Ref>): (items: seq<Item>)
    ensures |items| == |refs| && forall i :: 0 <= i < |refs| ==> items[i] == ItemOf(refs[i])
  {
    if refs == [] then [] else [ItemOf(refs[0])] + ItemsOf(refs[1..])
  }

  /** The pending rows, newest first. */
  function Order(timeLe: (string, string) -> bool, refs: seq<Ref>): seq<Ref> {
    Sorting.Sort(NewerFirst(timeLe), PendingOf(refs))
  }

  function ListInbox(timeLe: (string, string) -> bool, refs: seq<Ref>, limit: nat): Listing {
    var pending := Order(timeLe, refs);
    Listing(ItemsOf(if |pending| <= limit then pending else pending[..limit]), |pending|,
            if pending != [] then Some(pending[|pending| - 1].state.capturedAt) else None)
  }

  lemma {:induction false} PendingAreThose(refs: seq<Ref>, r: Ref)
    ensures multiset(PendingOf(refs))[r] == if r.state.status == Pending then multiset(refs)[r] else 0
  {
    if refs != [] {
      PendingAreThose(refs[1..], r);
      assert refs == [refs[0]] + refs[1..];
    }
  }

  lemma NewerFirstOrders(timeLe: (string, string) -> bool)
    requires Sorting.TotalPreorder(timeLe)
    ensures Sorting.TotalPreorder(NewerFirst(timeLe))
  {
    var le := NewerFirst(timeLe);
    forall a, b ensures le(a, b) || le(b, a) {
      assert timeLe(a.state.capturedAt, b.state.capturedAt) || timeLe(b.state.capturedAt, a.state.capturedAt);
    }
    forall a, b, c | le(a, b) && le(b, c) ensures le(a, c) {
      assert timeLe(c.state.capturedAt, b.state.capturedAt) && timeLe(b.state.capturedAt, a.state.capturedAt);
    }
  }

  /** The order holds every pending row as often as it was read, and no swept one. */
  lemma OrderIsThePending(timeLe: (string, string) -> bool, refs: seq<Ref>, r: Ref)
    ensures multiset(Order(timeLe, refs))[r] == if r.state.status == Pending then multiset(refs)[r] else 0
  {
    PendingAreThose(refs, r);
    Sorting.SortPermutes(NewerFirst(timeLe), PendingOf(refs));
  }

  lemma OrderIsNewestFirst(timeLe: (string, string) -> bool, refs: seq<Ref>, i: nat, j: nat)
    requires Sorting.TotalPreorder(timeLe) && i <= j < |Order(timeLe, refs)|
    ensures var o := Order(timeLe, refs); timeLe(o[j].state.capturedAt, o[i].state.capturedAt)
  {
    NewerFirstOrders(timeLe);
    Sorting.SortSorts(NewerFirst(timeLe), PendingOf(refs));
    var o := Order(timeLe, refs);
    if i < j {
      assert NewerFirst(timeLe)(o[i], o[j]);
    } else {
      assert timeLe(o[i].state.capturedAt, o[i].state.capturedAt);
    }
  }

  lemma PendingIsOrdered(timeLe: (string, string) -> bool, refs: seq<Ref>, r: Ref)
    ensures r in Order(timeLe, refs) <==> r in refs && r.state.status == Pending
  {
    OrderIsThePending(timeLe, refs, r);
    assert r in multiset(refs) <==> r in refs;
    assert r in multiset(Order(timeLe, refs)) <==> r in Order(timeLe, refs);
  }

  /** A row behind the first `n` of the order is no newer than any of these. */
  lemma LaterIsOlder(timeLe: (string, string) -> bool, refs: seq<Ref>, n: nat, i: nat, r: Ref)
    requires Sorting.TotalPreorder(timeLe) && i < n <= |Order(timeLe, refs)| && r in Order(timeLe, refs)[n..]
    ensures timeLe(r.state.capturedAt, Order(timeLe, refs)[i].state.capturedAt)
  {
    var later := Order(timeLe, refs)[n..];
    var k :| 0 <= k < |later| && later[k] == r;
    OrderIsNewestFirst(timeLe, refs, i, n + k);
  }

  lemma ListingIs(timeLe: (string, string) -> bool, refs: seq<Ref>, limit: nat)
    ensures var l, o := ListInbox(timeLe, refs, limit), Order(timeLe, refs);
      && l.totalPending == |o| && |l.items| == (if |o| <= limit then |o| else limit)
      && forall i :: 0 <= i < |l.items| ==> l.items[i] == ItemOf(o[i])
  {
  }

  /**
   Every item listed is a pending row's, newest first, and the newest there are:
   one left out, `r`, is no newer than any shown.
   */
  lemma ListsTheNewest(timeLe: (string, string) -> bool, refs: seq<Ref>, limit: nat, i: nat, r: Ref)
    requires Sorting.TotalPreorder(timeLe) && i < |ListInbox(timeLe, refs, limit).items|
    ensures var l, o := ListInbox(timeLe, refs, limit), Order(timeLe, refs);
      && l.totalPending == |o| && |l.items| == (if |o| <= limit then |o| else limit)
      && Says(l.items[i], o[i]) && l.items[i].status == Pending && o[i] in refs
      && (r in o[|l.items|..] ==> timeLe(r.state.capturedAt, l.items[i].capturedAt))
      && forall k :: i <= k < |l.items| ==> timeLe(l.items[k].capturedAt, l.items[i].capturedAt)
  {
    var l, o := ListInbox(timeLe, refs, limit), Order(timeLe, refs);
    ListingIs(timeLe, refs, limit);
    PendingIsOrdered(timeLe, refs, o[i]);
    ItemSays(o[i]);
    if r in o[|l.items|..] {
      LaterIsOlder(timeLe, refs, |l.items|, i, r);
    }
    forall k | i <= k < |l.items| ensures timeLe(l.items[k].capturedAt, l.items[i].capturedAt) {
      OrderIsNewestFirst(timeLe, refs, i, k);
    }
  }

  /** A pending row is listed, or the list is full and shows nothing older. */
  lemma PendingIsListed(timeLe: (string, string) -> bool, refs: seq<Ref>, limit: nat, r: Ref)
    requires Sorting.TotalPreorder(timeLe) && r in refs && r.state.status == Pending
    ensures var items := ListInbox(timeLe, refs, limit).items;
      || (exists item :: item in items && Says(item, r))
      || (|items| == limit && forall m :: 0 <= m < limit ==> timeLe(r.state.capturedAt, items[m].capturedAt))
  {
    var items, o := ListInbox(timeLe, refs, limit).items, Order(timeLe, refs);
    ListingIs(timeLe, refs, limit);
    PendingIsOrdered(timeLe, refs, r);
    var k :| 0 <= k < |o| && o[k] == r;
    if k < |items| {
      ItemSays(r);
      assert items[k] in items;
    } else {
      forall m | 0 <= m < limit ensures timeLe(r.state.capturedAt, items[m].capturedAt) {
        OrderIsNewestFirst(timeLe, refs, m, k);
      }
    }
  }

  /** The last of the order is a pending row, no newer than any. */
  lemma LastIsOldest(timeLe: (string, string) -> bool, refs: seq<Ref>, r: Ref)
    requires Sorting.TotalPreorder(timeLe) && r in refs && r.state.status == Pending
    ensures var o := Order(timeLe, refs);
      && o != [] && timeLe(o[|o| - 1].state.capturedAt, r.state.capturedAt)
      && o[|o| - 1] in refs && o[|o| - 1].state.status == Pending
  {
    var o := Order(timeLe, refs);
    PendingIsOrdered(timeLe, refs, r);
    var i :| 0 <= i < |o| && o[i] == r;
    OrderIsNewestFirst(timeLe, refs, i, |o| - 1);
    PendingIsOrdered(timeLe, refs, o[|o| - 1]);
  }

  /** No oldest time is named exactly when no row read is pending. */
  lemma OldestWhenPending(timeLe: (string, string) -> bool, refs: seq<Ref>, limit: nat)
    ensures ListInbox(timeLe, refs, limit).oldest == None <==> forall r :: r in refs ==> r.state.status != Pending
  {
    var o := Order(timeLe, refs);
    forall r ensures r in o <==> r in refs && r.state.status == Pending {
      PendingIsOrdered(timeLe, refs, r);
    }
    assert o != [] ==> o[0] in o;
  }

  /** The oldest time named is a pending row's, no newer than any pending row's. */
  lemma OldestIsOldest(timeLe: (string, string) -> bool, refs: seq<Ref>, limit: nat, r: Ref) returns (oldest: Ref)
    requires Sorting.TotalPreorder(timeLe) && r in refs && r.state.status == Pending
    ensures ListInbox(timeLe, refs, limit).oldest == Some(oldest.state.capturedAt)
    ensures oldest in refs && oldest.state.status == Pending && timeLe(oldest.state.capturedAt, r.state.capturedAt)
  {
    LastIsOldest(timeLe, refs, r);
    oldest := Order(timeLe, refs)[|Order(timeLe, refs)| - 1];
  }

  /**
   Until it is swept, a capture that was answered is listed under the answered id
   and its own kind, as pending, or the list is full and shows nothing older.
   */
  lemma ListedUnderItsId(h: Hashing, states: seq<State>, events: seq<Event>, i: nat, j: nat, id: string,
                         timeLe: (string, string) -> bool, refs: seq<Ref>, limit: nat) returns (item: Item)
    requires AnsweredUnswept(h, states, events, i, j, id) && Sorting.TotalPreorder(timeLe)
    requires id in states[j].records && Ref(PathOf(id), states[j].records[id]) in refs
    ensures item.id == id && item.kind == Answered(states[i], events[i]).kind && item.status == Pending
    ensures Says(item, Ref("inbox/" + id, states[j].records[id]))
    ensures var items := ListInbox(timeLe, refs, limit).items;
      item in items || (|items| == limit && forall m :: 0 <= m < limit ==> timeLe(item.capturedAt, items[m].capturedAt))
  {
    var r := Ref(PathOf(id), states[j].records[id]);
    AnswerStands(h, states, events, i, j, id);
    IdIsTheKey(id);
    ItemSays(r);
    assert r.path == "inbox/" + id;
    PendingIsListed(timeLe, refs, limit, r);
    var a := Answered(states[i], events[i]);
    KeysAreInjective(r.state.kind, r.state.fingerprint, a.kind, FingerprintOf(h, a));
    var items := ListInbox(timeLe, refs, limit).items;
    item := ItemOf(r);
    if x :| x in items && Says(x, r) {
      item := x;
    }
  }
}
