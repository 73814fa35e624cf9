/**
 `watchSessions`: the sessions list, read by one pump that any wake may start.

 A pass either lists every mode's sessions and reads each row, or reads the
 rows of the sessions that were noticed. Every await inside a pass is a point
 where notices, the retry timer, an opened session or the caller's stop may
 come in. A step is one turn of the event loop.
 */
module SessionPump {
  import opened Wrappers

  /** What one row read answers: the row, and whether all of it could be read. */
  datatype Read = Read(text: string, complete: bool)

  /** Where a pass stands: which await it is in, and what it has read so far. */
  datatype Phase =
    | NoPass
    | Listing(mode: nat, next: map<string, string>, complete: bool)
    | ReadingMode(mode: nat, next: map<string, string>, complete: bool, ids: set<string>)
    | ReadingDirty(ids: set<string>)

  /** The closure's variables; `shown` is the list last told and `open` whether a subscription is held. */
  datatype Pump = Pump(
    live: bool, running: bool, relist: bool, dirty: set<string>, rows: map<string, string>,
    phase: Phase, timer: bool, subscribed: Option<set<string>>, open: bool, shown: Option<map<string, string>>)

  datatype Event =
    | Notices(id: string)
    | NoticesAll
    | TimerFires
    | Lists(ids: set<string>)
    | ReadsMode(got: map<string, Read>)
    | ReadsDirty(got: map<string, Read>, quits: bool)
    | ReadsLast(got: map<string, Read>, quits: bool)
    | Fails
    | Stops

  /** The head of the pump's loop: begin the next pass, or stop running. */
  function Loop(p: Pump): Pump {
    var lists := p.live && p.relist;
    var rereads := p.live && !p.relist && p.dirty != {};
    p.(running := lists || rereads,
       relist := p.relist && !lists,
       dirty := if lists || rereads then {} else p.dirty,
       phase := if lists then Listing(0, map[], true) else if rereads then ReadingDirty(p.dirty) else NoPass)
  }

  function Wake(p: Pump): Pump {
    if p.running then p else Loop(p)
  }

  /** The rows a finished read gives. */
  function RowsRead(got: map<string, Read>): map<string, string> {
    map id | id in got :: got[id].text
  }

  predicate AllComplete(got: map<string, Read>) {
    forall id :: id in got ==> got[id].complete
  }

  /** The end of a pass that read `rows`: tell, listen, and settle the retry. */
  function Settled(p: Pump, rows: map<string, string>, complete: bool, quits: bool): Pump {
    var stopped := p.live && quits && p.shown != Some(rows);
    p.(rows := rows,
       live := p.live && !stopped,
       shown := if p.live then Some(rows) else p.shown,
       open := if !p.live then p.open else p.subscribed != Some(rows.Keys) || (p.open && !stopped),
       subscribed := if p.live then Some(rows.Keys) else p.subscribed,
       timer := if !p.live then p.timer else !complete || (p.timer && !stopped))
  }

  function Ends(p: Pump, rows: map<string, string>, complete: bool, quits: bool): Pump {
    Loop(Settled(p, rows, complete, quits))
  }

  function FailsNow(p: Pump): Pump {
    Loop(p.(timer := p.timer || p.live))
  }

  /** `e` can come now: a pass's own events come only from the await they end. */
  predicate Can(modes: nat, p: Pump, e: Event) {
    match e
    case TimerFires => p.timer
    case Lists(_) => p.phase.Listing?
    case ReadsMode(got) => p.phase.ReadingMode? && got.Keys == p.phase.ids && p.phase.mode + 1 < modes
    case ReadsLast(got, _) => p.phase.ReadingMode? && got.Keys == p.phase.ids && p.phase.mode + 1 >= modes
    case ReadsDirty(got, _) => p.phase.ReadingDirty? && got.Keys == p.phase.ids * p.rows.Keys
    case Fails => !p.phase.NoPass?
    case _ => true
  }

  function Step(p: Pump, e: Event): Pump {
    match e
    case Notices(id) => Wake(p.(dirty := p.dirty + {id}))
    case NoticesAll => Wake(p.(relist := true))
    case TimerFires => Wake(p.(relist := true, timer := false))
    case Lists(ids) =>
      if p.phase.Listing? then p.(phase := ReadingMode(p.phase.mode, p.phase.next, p.phase.complete, ids)) else p
    case ReadsMode(got) =>
      if p.phase.ReadingMode? then
        p.(phase := Listing(p.phase.mode + 1, p.phase.next + RowsRead(got), p.phase.complete && AllComplete(got)))
      else p
    case ReadsLast(got, quits) =>
      if p.phase.ReadingMode? then
        Ends(p, p.phase.next + RowsRead(got), p.phase.complete && AllComplete(got), quits)
      else p
    case ReadsDirty(got, quits) =>
      if p.phase.ReadingDirty? then Ends(p, p.rows + RowsRead(got), AllComplete(got), quits) else p
    case Fails => if p.phase.NoPass? then p else FailsNow(p)
    case Stops => p.(live := false, timer := false, open := false)
  }

  /** A pump just made: it lists at once. */
  function Made(): Pump {
    Loop(Pump(true, true, true, {}, map[], NoPass, false, None, false, None))
  }

  ghost predicate Run(modes: nat, ps: seq<Pump>, es: seq<Event>) {
    && |ps| == |es| + 1 && ps[0] == Made()
    && forall i :: 0 <= i < |es| ==> StepAt(modes, ps, es, i)
  }

  ghost predicate StepAt(modes: nat, ps: seq<Pump>, es: seq<Event>, i: nat)
    requires i < |es| && |ps| == |es| + 1
  {
    Can(modes, ps[i], es[i]) && ps[i + 1] == Step(ps[i], es[i])
  }

  // ----- What the events say -----

  /** A pass ends: it lands what it read, or fails. */
  predicate PassEnds(e: Event) {
    e.ReadsLast? || e.ReadsDirty? || e.Fails?
  }

  predicate ListsAgain(e: Event) {
    e.NoticesAll? || e.TimerFires?
  }

  /** The event the pass in hand at `i` began with, or `i` if none is in hand. */
  function PassBegan(ps: seq<Pump>, es: seq<Event>, i: nat): (b: nat)
    requires i <= |es| < |ps|
    ensures b <= i
  {
    if i == 0 || PassEnds(es[i - 1]) || !ps[i - 1].running then i else PassBegan(ps, es, i - 1)
  }

  /** A listing was asked for while the pass in hand at `i` was out. */
  predicate AskedToList(ps: seq<Pump>, es: seq<Event>, i: nat)
    requires i <= |es| < |ps|
  {
    exists m :: PassBegan(ps, es, i) <= m < i && ListsAgain(es[m])
  }

  /** `id` was noticed while the pass in hand at `i` was out. */
  predicate Noticed(ps: seq<Pump>, es: seq<Event>, i: nat, id: string)
    requires i <= |es| < |ps|
  {
    exists m :: PassBegan(ps, es, i) <= m < i && es[m] == Notices(id)
  }

  /** What the pass in hand has listed and read: the texts, whether all were read whole, which ids, how many modes. */
  datatype Hand = Hand(texts: map<string, string>, whole: bool, ids: set<string>, lists: nat)

  function InHand(es: seq<Event>): Hand {
    if es == [] then Hand(map[], true, {}, 0)
    else
      var h := InHand(es[..|es| - 1]);
      match es[|es| - 1]
      case Lists(ids) => h.(ids := h.ids + ids, lists := h.lists + 1)
      case ReadsMode(got) =>
        h.(texts := h.texts + (map id | id in got :: got[id].text),
           whole := h.whole && forall id :: id in got ==> got[id].complete)
      case ReadsLast(_, _) => Hand(map[], true, {}, 0)
      case ReadsDirty(_, _) => Hand(map[], true, {}, 0)
      case Fails => Hand(map[], true, {}, 0)
      case _ => h
  }

  /** Each session's text as the last read of it that landed answered it, of the sessions last listed. */
  function Landed(es: seq<Event>): map<string, string> {
    if es == [] then map[]
    else
      var before := es[..|es| - 1];
      match es[|es| - 1]
      case ReadsLast(got, _) => InHand(before).texts + (map id | id in got :: got[id].text)
      case ReadsDirty(got, _) => Landed(before) + (map id | id in got :: got[id].text)
      case _ => Landed(before)
  }

  /** A pass failed or landed a row not read whole since the last retry. */
  predicate Owed(es: seq<Event>) {
    es != []
    && var before := es[..|es| - 1];
       match es[|es| - 1]
       case ReadsLast(got, _) => Owed(before) || !InHand(before).whole || exists id :: id in got && !got[id].complete
       case ReadsDirty(got, _) => Owed(before) || exists id :: id in got && !got[id].complete
       case Fails => true
       case TimerFires => false
       case _ => Owed(before)
  }

  function EndCount(es: seq<Event>): nat {
    if es == [] then 0 else EndCount(es[..|es| - 1]) + if PassEnds(es[|es| - 1]) then 1 else 0
  }

  function WakeCount(es: seq<Event>): nat {
    if es == [] then 0
    else
      var e := es[|es| - 1];
      WakeCount(es[..|es| - 1]) + if e.Notices? || e.NoticesAll? || e.TimerFires? then 1 else 0
  }

  predicate ReadsWhole(e: Event, id: string) {
    (e.ReadsMode? || e.ReadsLast? || e.ReadsDirty?) && id in e.got && e.got[id].complete
  }

  /** No notice about `id`, and none about every session, came from event `b` up to `i`. */
  predicate NoNotice(es: seq<Event>, b: nat, i: nat, id: string)
    requires i <= |es|
  {
    forall m :: b <= m < i ==> es[m] != Notices(id) && !es[m].NoticesAll?
  }

  /** What was read at `k` landed at `l`. */
  predicate Lands(es: seq<Event>, k: nat, l: nat)
    requires k <= l < |es|
  {
    (es[l].ReadsLast? || es[l].ReadsDirty?) && forall m :: k <= m < l ==> !PassEnds(es[m])
  }

  /** `id` was read whole, by a pass that landed, and no notice has concerned it since that pass began. */
  ghost predicate Fresh(ps: seq<Pump>, es: seq<Event>, i: nat, id: string)
    requires i <= |es| < |ps|
  {
    exists k, l :: 0 <= k <= l < i && FreshBy(ps, es, k, l, i, id)
  }

  ghost predicate FreshBy(ps: seq<Pump>, es: seq<Event>, k: nat, l: nat, i: nat, id: string)
    requires k <= l < i <= |es| < |ps|
  {
    ReadsWhole(es[k], id) && Lands(es, k, l) && NoNotice(es, PassBegan(ps, es, k), i, id)
  }

  // ----- What every reachable pump satisfies -----

  /** A pump runs just when a pass is under way, and a live one rests only with nothing to do. */
  ghost predicate OnePass(p: Pump) {
    (p.running <==> !p.phase.NoPass?) && (p.live && !p.running ==> !p.relist && p.dirty == {})
  }

  /** The list told is the rows held, and the subscription hears exactly the listed sessions. */
  ghost predicate ShowsRows(p: Pump) {
    p.live && p.subscribed.Some? ==> p.shown == Some(p.rows) && p.subscribed == Some(p.rows.Keys) && p.open
  }

  /** Before the first listing has landed nothing is held or told. */
  ghost predicate Unlisted(p: Pump) {
    p.live && p.subscribed.None? ==> p.rows == map[] && p.shown.None?
  }

  /** What is queued is what came while the pass in hand was out. */
  ghost predicate Queued(ps: seq<Pump>, es: seq<Event>, i: nat)
    requires i <= |es| < |ps|
  {
    ps[i].live ==>
      && (ps[i].relist <==> AskedToList(ps, es, i))
      && (forall id :: id in ps[i].dirty <==> Noticed(ps, es, i, id))
  }

  ghost predicate Counted(p: Pump, es: seq<Event>) {
    EndCount(es) + (if p.running then 1 else 0) + (if p.relist then 1 else 0) + (if p.dirty != {} then 1 else 0)
      <= 1 + WakeCount(es)
  }

  /** The rows are those that landed, and a listing pass holds what it has read so far. */
  ghost predicate HoldsLanded(p: Pump, es: seq<Event>) {
    var h := InHand(es);
    && p.rows == Landed(es)
    && match p.phase
       case Listing(mode, next, complete) => h == Hand(next, complete, next.Keys, mode)
       case ReadingMode(mode, next, complete, ids) => h == Hand(next, complete, next.Keys + ids, mode + 1)
       case _ => h == Hand(map[], true, {}, 0)
  }

  ghost predicate RetryOk(p: Pump, es: seq<Event>) {
    p.live ==> (p.timer <==> Owed(es))
  }

  /** The running pass reads `id` again. */
  predicate Covers(phase: Phase, id: string) {
    phase.Listing? || phase.ReadingMode? || (phase.ReadingDirty? && id in phase.ids)
  }

  /** A listed session is fresh, or something will read it again. */
  ghost predicate Current(ps: seq<Pump>, es: seq<Event>, i: nat, id: string)
    requires i <= |es| < |ps|
  {
    var p := ps[i];
    p.live && id in p.rows ==>
      Fresh(ps, es, i, id) || id in p.dirty || p.relist || p.timer || Covers(p.phase, id)
  }

  /** A row read by the pass in hand was read whole by it, or marks the pass incomplete. */
  ghost predicate NextOk(ps: seq<Pump>, es: seq<Event>, i: nat, id: string)
    requires i <= |es| < |ps|
  {
    var phase := ps[i].phase;
    (phase.Listing? || phase.ReadingMode?) && phase.complete && id in phase.next ==>
      exists k :: PassBegan(ps, es, i) <= k < i && ReadsWhole(es[k], id)
  }

  lemma StepOnePass(p: Pump, e: Event)
    requires OnePass(p)
    ensures OnePass(Step(p, e))
  {
  }

  lemma StepShowsRows(p: Pump, e: Event)
    requires ShowsRows(p) && Unlisted(p)
    ensures ShowsRows(Step(p, e)) && Unlisted(Step(p, e))
  {
  }

  lemma StepCounted(p: Pump, es: seq<Event>, e: Event, modes: nat)
    requires OnePass(p) && Counted(p, es) && Can(modes, p, e)
    ensures Counted(Step(p, e), es + [e])
  {
    assert (es + [e])[..|es|] == es;
  }

  lemma StepHoldsLanded(p: Pump, es: seq<Event>, e: Event, modes: nat)
    requires OnePass(p) && HoldsLanded(p, es) && Can(modes, p, e)
    ensures HoldsLanded(Step(p, e), es + [e])
  {
    assert (es + [e])[..|es|] == es;
  }

  lemma StepRetryOk(p: Pump, es: seq<Event>, e: Event, modes: nat)
    requires RetryOk(p, es) && HoldsLanded(p, es) && Can(modes, p, e)
    ensures RetryOk(Step(p, e), es + [e])
  {
    assert (es + [e])[..|es|] == es;
  }

  /** The end of a pass empties what it left queued; a wake of a resting pump never queues. */
  lemma StepQueued(modes: nat, ps: seq<Pump>, es: seq<Event>, i: nat)
    requires i < |es| && |ps| == |es| + 1 && StepAt(modes, ps, es, i) && OnePass(ps[i]) && Queued(ps, es, i)
    ensures Queued(ps, es, i + 1)
  {
    var p, p', e := ps[i], ps[i + 1], es[i];
    if p'.live {
      assert p.live;
      if !PassEnds(e) && p.running {
        assert PassBegan(ps, es, i + 1) == PassBegan(ps, es, i);
        assert AskedToList(ps, es, i + 1) <==> AskedToList(ps, es, i) || ListsAgain(e);
        forall id ensures Noticed(ps, es, i + 1, id) <==> Noticed(ps, es, i, id) || e == Notices(id) {
        }
      }
    }
  }

  /** Every event of the pass in hand comes after it began, ends no pass, and is of that pass. */
  lemma {:induction false} InOnePass(ps: seq<Pump>, es: seq<Event>, m: nat, i: nat)
    requires i <= |es| < |ps| && PassBegan(ps, es, i) <= m <= i
    ensures PassBegan(ps, es, m) == PassBegan(ps, es, i)
    ensures forall k :: m <= k < i ==> !PassEnds(es[k])
    decreases i
  {
    if m < i {
      InOnePass(ps, es, m, i - 1);
    }
  }

  lemma StepNextOk(modes: nat, ps: seq<Pump>, es: seq<Event>, i: nat, id: string)
    requires i < |es| && |ps| == |es| + 1 && StepAt(modes, ps, es, i) && OnePass(ps[i]) && NextOk(ps, es, i, id)
    ensures NextOk(ps, es, i + 1, id)
  {
    var p, e := ps[i], es[i];
    if !PassEnds(e) && p.running {
      assert PassBegan(ps, es, i + 1) == PassBegan(ps, es, i);
      if e.ReadsMode? && id in e.got && e.got[id].complete {
        assert ReadsWhole(es[i], id);
      }
    }
  }

  /** What was fresh stays so past an event that is no notice about it. */
  lemma FreshStays(ps: seq<Pump>, es: seq<Event>, i: nat, id: string)
    requires i < |es| < |ps| && Fresh(ps, es, i, id) && es[i] != Notices(id) && !es[i].NoticesAll?
    ensures Fresh(ps, es, i + 1, id)
  {
    var k, l :| 0 <= k <= l < i && FreshBy(ps, es, k, l, i, id);
    assert FreshBy(ps, es, k, l, i + 1, id);
  }

  /** A row read whole by the pass that lands at `i` is fresh, unless it was noticed meanwhile. */
  lemma LandsFresh(ps: seq<Pump>, es: seq<Event>, k: nat, i: nat, id: string)
    requires i < |es| < |ps| && PassBegan(ps, es, i) <= k <= i && ReadsWhole(es[k], id)
    requires es[i].ReadsLast? || es[i].ReadsDirty?
    requires NoNotice(es, PassBegan(ps, es, i), i, id)
    ensures Fresh(ps, es, i + 1, id)
  {
    InOnePass(ps, es, k, i);
    assert FreshBy(ps, es, k, i, i + 1, id);
  }

  /** A notice that came while the pass in hand was out is queued. */
  lemma NoticedIsQueued(ps: seq<Pump>, es: seq<Event>, i: nat, id: string)
    requires i <= |es| < |ps| && ps[i].live && Queued(ps, es, i)
    ensures id in ps[i].dirty || ps[i].relist || NoNotice(es, PassBegan(ps, es, i), i, id)
  {
  }

  lemma LandingKeepsCurrent(modes: nat, ps: seq<Pump>, es: seq<Event>, i: nat, id: string)
    requires i < |es| && |ps| == |es| + 1 && StepAt(modes, ps, es, i) && (es[i].ReadsLast? || es[i].ReadsDirty?)
    requires Queued(ps, es, i) && NextOk(ps, es, i, id) && Current(ps, es, i, id)
    requires ps[i].live && id in ps[i + 1].rows && ps[i + 1].live && !ps[i + 1].timer
    requires id !in ps[i].dirty && !ps[i].relist
    ensures Fresh(ps, es, i + 1, id)
  {
    NoticedIsQueued(ps, es, i, id);
    var e := es[i];
    if id in e.got {
      assert ReadsWhole(es[i], id);
      LandsFresh(ps, es, i, i, id);
    } else if e.ReadsLast? {
      var k :| PassBegan(ps, es, i) <= k < i && ReadsWhole(es[k], id);
      LandsFresh(ps, es, k, i, id);
    } else {
      FreshStays(ps, es, i, id);
    }
  }

  lemma StepCurrent(modes: nat, ps: seq<Pump>, es: seq<Event>, i: nat, id: string)
    requires i < |es| && |ps| == |es| + 1 && StepAt(modes, ps, es, i)
    requires OnePass(ps[i]) && Queued(ps, es, i) && NextOk(ps, es, i, id) && Current(ps, es, i, id)
    ensures Current(ps, es, i + 1, id)
  {
    var p, p', e := ps[i], ps[i + 1], es[i];
    if p'.live && id in p'.rows {
      assert p.live;
      if e.ReadsLast? || e.ReadsDirty? {
        if id !in p.dirty && !p.relist && !p'.timer {
          LandingKeepsCurrent(modes, ps, es, i, id);
        }
      } else if e != Notices(id) && !e.NoticesAll? && Fresh(ps, es, i, id) {
        FreshStays(ps, es, i, id);
      }
    }
  }

  ghost predicate PumpOk(ps: seq<Pump>, es: seq<Event>, i: nat, id: string)
    requires i <= |es| < |ps|
  {
    && OnePass(ps[i]) && ShowsRows(ps[i]) && Unlisted(ps[i])
    && Queued(ps, es, i) && NextOk(ps, es, i, id) && Current(ps, es, i, id)
  }

  lemma {:induction false} Holds(modes: nat, ps: seq<Pump>, es: seq<Event>, i: nat, id: string)
    requires Run(modes, ps, es) && i <= |es|
    ensures PumpOk(ps, es, i, id)
  {
    if i > 0 {
      Holds(modes, ps, es, i - 1, id);
      assert StepAt(modes, ps, es, i - 1);
      StepOnePass(ps[i - 1], es[i - 1]);
      StepShowsRows(ps[i - 1], es[i - 1]);
      StepQueued(modes, ps, es, i - 1);
      StepNextOk(modes, ps, es, i - 1, id);
      StepCurrent(modes, ps, es, i - 1, id);
    }
  }

  lemma {:induction false} LogsHold(modes: nat, ps: seq<Pump>, es: seq<Event>, i: nat)
    requires Run(modes, ps, es) && i <= |es|
    ensures Counted(ps[i], es[..i]) && HoldsLanded(ps[i], es[..i]) && RetryOk(ps[i], es[..i])
  {
    if i > 0 {
      LogsHold(modes, ps, es, i - 1);
      Holds(modes, ps, es, i - 1, "");
      assert StepAt(modes, ps, es, i - 1) && es[..i] == es[..i - 1] + [es[i - 1]];
      StepCounted(ps[i - 1], es[..i - 1], es[i - 1], modes);
      StepHoldsLanded(ps[i - 1], es[..i - 1], es[i - 1], modes);
      StepRetryOk(ps[i - 1], es[..i - 1], es[i - 1], modes);
    }
  }

  // ----- The promises -----

  /**
   No wake is lost. In every live state of every run, a listed session was read
   whole by a pass that landed and that began after the last notice about it, or
   it is queued, or a listing is, or a retry is waiting, or the running pass, itself
   begun after that notice, reads it again. So a pump at rest with no retry waiting
   shows rows newer than every notice.
   */
  lemma NoLostWake(modes: nat, ps: seq<Pump>, es: seq<Event>, i: nat, id: string)
    requires Run(modes, ps, es) && i <= |es| && ps[i].live && id in ps[i].rows
    ensures var p := ps[i];
      && (Fresh(ps, es, i, id) || id in p.dirty || p.relist || p.timer
          || (Covers(p.phase, id) && NoNotice(es, PassBegan(ps, es, i), i, id)))
      && (!p.running && !p.timer ==> Fresh(ps, es, i, id))
  {
    Holds(modes, ps, es, i, id);
    NoticedIsQueued(ps, es, i, id);
  }

  /**
   What is held. In every state of every run the rows are exactly the sessions of
   the last listing that landed, each with the text that the last read of it to
   land answered; once a listing has landed, that is the list a live pump has told.
   */
  lemma HoldsWhatLanded(modes: nat, ps: seq<Pump>, es: seq<Event>, i: nat)
    requires Run(modes, ps, es) && i <= |es|
    ensures ps[i].rows == Landed(es[..i])
    ensures ps[i].live && ps[i].subscribed.Some? ==> ps[i].shown == Some(Landed(es[..i]))
  {
    LogsHold(modes, ps, es, i);
    Holds(modes, ps, es, i, "");
  }

  /** A listing lands once every mode was listed, with exactly the sessions listed; a reread changes no ids. */
  lemma LandsEveryMode(modes: nat, ps: seq<Pump>, es: seq<Event>, i: nat)
    requires Run(modes, ps, es) && i < |es| && modes > 0
    ensures es[i].ReadsLast? ==> InHand(es[..i]).lists == modes && ps[i + 1].rows.Keys == InHand(es[..i]).ids
    ensures es[i].ReadsDirty? ==> ps[i + 1].rows.Keys == ps[i].rows.Keys
  {
    LogsHold(modes, ps, es, i);
    ModeBelow(modes, ps, es, i);
    assert StepAt(modes, ps, es, i);
  }

  lemma {:induction false} ModeBelow(modes: nat, ps: seq<Pump>, es: seq<Event>, i: nat)
    requires Run(modes, ps, es) && i <= |es| && modes > 0
    ensures ps[i].phase.Listing? || ps[i].phase.ReadingMode? ==> ps[i].phase.mode < modes
  {
    if i > 0 {
      ModeBelow(modes, ps, es, i - 1);
      assert StepAt(modes, ps, es, i - 1);
    }
  }

  /** Every pass has a cause: all but the first, with those queued, answer a wake of their own. */
  lemma PassesOnlyWhenWoken(modes: nat, ps: seq<Pump>, es: seq<Event>, i: nat)
    requires Run(modes, ps, es) && i <= |es|
    ensures EndCount(es[..i]) + (if ps[i].running then 1 else 0) <= 1 + WakeCount(es[..i])
  {
    LogsHold(modes, ps, es, i);
  }

  /**
   What comes next. At the end of a pass a live pump lists if a listing was asked
   for while the pass was out, or else rereads exactly the sessions noticed
   meanwhile, or else rests. A resting one answers a notice by rereading its
   session, and a call for a listing by listing; nothing else sets it going.
   */
  lemma NextPass(modes: nat, ps: seq<Pump>, es: seq<Event>, i: nat)
    requires Run(modes, ps, es) && i < |es| && ps[i + 1].live
    ensures var p', e := ps[i + 1], es[i];
      && (PassEnds(e) ==>
            && (p'.phase.Listing? <==> AskedToList(ps, es, i))
            && (p'.phase.ReadingDirty? <==> !AskedToList(ps, es, i) && exists id :: Noticed(ps, es, i, id))
            && (p'.phase.ReadingDirty? ==> forall id :: id in p'.phase.ids <==> Noticed(ps, es, i, id))
            && !p'.phase.ReadingMode?)
      && (!ps[i].running ==>
            && (p'.phase.Listing? <==> ListsAgain(e))
            && (e.Notices? ==> p'.phase == ReadingDirty({e.id}))
            && (p'.running <==> ListsAgain(e) || e.Notices?))
      && (p'.running <==> !p'.phase.NoPass?)
  {
    Holds(modes, ps, es, i, "");
    Holds(modes, ps, es, i + 1, "");
    assert StepAt(modes, ps, es, i);
    if PassEnds(es[i]) && ps[i].dirty != {} {
      var id :| id in ps[i].dirty;
      assert Noticed(ps, es, i, id);
    }
  }

  /** A live pump's retry waits exactly when a pass failed, or landed a row not read whole, since the last retry. */
  lemma RetriesWhatFailed(modes: nat, ps: seq<Pump>, es: seq<Event>, i: nat)
    requires Run(modes, ps, es) && i <= |es| && ps[i].live
    ensures ps[i].timer <==> Owed(es[..i])
  {
    LogsHold(modes, ps, es, i);
  }

  /** A live pump stops exactly at its caller's stop, which may come as it is told a changed list. */
  lemma StopsWhenAsked(modes: nat, ps: seq<Pump>, es: seq<Event>, i: nat)
    requires Run(modes, ps, es) && i < |es| && ps[i].live
    ensures !ps[i + 1].live
      <==> (es[i].Stops?
            || ((es[i].ReadsLast? || es[i].ReadsDirty?) && es[i].quits
                && (ps[i].subscribed.None? || Landed(es[..i + 1]) != Landed(es[..i]))))
  {
    assert StepAt(modes, ps, es, i);
    HoldsWhatLanded(modes, ps, es, i);
    HoldsWhatLanded(modes, ps, es, i + 1);
    Holds(modes, ps, es, i, "");
  }

  /** Once a listing has landed, a live list was told the rows it holds and hears exactly the sessions it lists. */
  lemma ShowsWhatItHolds(modes: nat, ps: seq<Pump>, es: seq<Event>, i: nat)
    requires Run(modes, ps, es) && i <= |es| && ps[i].live && ps[i].subscribed.Some?
    ensures ps[i].shown == Some(ps[i].rows)
    ensures ps[i].subscribed == Some(ps[i].rows.Keys) && ps[i].open
  {
    Holds(modes, ps, es, i, "");
  }

  /** Nothing is left behind: no retry waits and no subscription is open. */
  predicate Quiet(p: Pump) {
    !p.timer && !p.open
  }

  /**
   When the caller stops the list, nothing is left behind, with one exception: a
   caller that stops it from inside its own change callback leaves a retry if that
   pass read some row only in part, and a subscription if that pass changed which
   sessions are listed. This is exactly when.
   */
  lemma StopLeavesNothingUnlessInsideTell(modes: nat, ps: seq<Pump>, es: seq<Event>, i: nat)
    requires Run(modes, ps, es) && i < |es| && ps[i].live && !ps[i + 1].live
    ensures Quiet(ps[i + 1])
      <==> (es[i].ReadsLast? || es[i].ReadsDirty? ==>
              && (forall id :: id in es[i].got ==> es[i].got[id].complete)
              && InHand(es[..i]).whole
              && ps[i].subscribed == Some(Landed(es[..i + 1]).Keys))
  {
    assert StepAt(modes, ps, es, i);
    LogsHold(modes, ps, es, i);
    LogsHold(modes, ps, es, i + 1);
  }

  /** A run of one listing of `got`, whose callback stops the list. */
  lemma StoppedInTell(got: map<string, Read>) returns (ps: seq<Pump>, es: seq<Event>)
    ensures Run(1, ps, es) && |es| == 2 && !ps[2].live
    ensures ps[2].open && ps[2].timer == !AllComplete(got)
  {
    es := [Lists(got.Keys), ReadsLast(got, true)];
    var p0 := Made();
    var p1 := Step(p0, es[0]);
    var p2 := Step(p1, es[1]);
    ps := [p0, p1, p2];
    assert StepAt(1, ps, es, 0) && StepAt(1, ps, es, 1);
  }

  /** The exception happens, in two events: a subscription stays open, and after an unread board a retry waits too. */
  lemma StopInsideTellLeaks()
    ensures exists ps: seq<Pump>, es: seq<Event> ::
      Run(1, ps, es) && |es| == 2 && !ps[2].live && ps[2].open && !ps[2].timer
    ensures exists ps: seq<Pump>, es: seq<Event> ::
      Run(1, ps, es) && |es| == 2 && !ps[2].live && ps[2].timer
  {
    var ps, es := StoppedInTell(map[]);
    var got := map["s" := Read("", false)];
    assert "s" in got;
    var ps', es' := StoppedInTell(got);
  }

  lemma StoppedStep(modes: nat, p: Pump, e: Event)
    requires !p.live && Can(modes, p, e)
    ensures !Step(p, e).live && Step(p, e).shown == p.shown
    ensures OnePass(p) && Step(p, e).running ==> p.running && !PassEnds(e)
  {
  }

  lemma QuietStep(p: Pump, e: Event)
    requires !p.live && Quiet(p)
    ensures Quiet(Step(p, e))
  {
  }

  /**
   A stopped list never tells anything more and begins no pass: one that runs is
   the pass that was out at the stop. If its stop left nothing behind, nothing comes.
   */
  lemma {:induction false} StoppedStaysQuiet(modes: nat, ps: seq<Pump>, es: seq<Event>, i: nat, j: nat)
    requires Run(modes, ps, es) && i <= j <= |es| && !ps[i].live
    ensures !ps[j].live && ps[j].shown == ps[i].shown
    ensures ps[j].running ==> ps[i].running && forall m :: i <= m < j ==> !PassEnds(es[m])
    ensures Quiet(ps[i]) ==> Quiet(ps[j])
    decreases j
  {
    if i < j {
      StoppedStaysQuiet(modes, ps, es, i, j - 1);
      Holds(modes, ps, es, j - 1, "");
      assert StepAt(modes, ps, es, j - 1);
      StoppedStep(modes, ps[j - 1], es[j - 1]);
      if Quiet(ps[i]) {
        QuietStep(ps[j - 1], es[j - 1]);
      }
    }
  }

  lemma NextModeIs(p: Pump, got: map<string, Read>)
    requires p.phase.ReadingMode?
    ensures Step(p, ReadsMode(got))
         == p.(phase := Listing(p.phase.mode + 1, p.phase.next + RowsRead(got), p.phase.complete && AllComplete(got)))
  {
  }

  lemma LastReadIs(p: Pump, got: map<string, Read>, quits: bool)
    requires p.phase.ReadingMode?
    ensures Step(p, ReadsLast(got, quits))
         == Ends(p, p.phase.next + RowsRead(got), p.phase.complete && AllComplete(got), quits)
  {
  }

  lemma DirtyReadIs(p: Pump, got: map<string, Read>, quits: bool)
    requires p.phase.ReadingDirty?
    ensures Step(p, ReadsDirty(got, quits)) == Ends(p, p.rows + RowsRead(got), AllComplete(got), quits)
  {
  }

  // ----- The pump as it is written -----

  class WatchSessions {
    var live: bool
    var running: bool
    var relist: bool
    var dirty: set<string>
    var rows: map<string, string>
    var phase: Phase
    var timer: bool
    var subscribed: Option<set<string>>
    var open: bool
    var shown: Option<map<string, string>>

    ghost function Now(): Pump
      reads this
    {
      Pump(live, running, relist, dirty, rows, phase, timer, subscribed, open, shown)
    }

    constructor ()
      ensures Now() == Made()
    {
      live, running, relist, dirty, rows, phase := true, false, true, {}, map[], NoPass;
      timer, subscribed, open, shown := false, None, false, None;
      new;
      PumpNow();
    }

    /** The loop's test, after whatever ended the pass before: begin a pass up to its first await, or stop. */
    method LoopOn()
      modifies this
      ensures Now() == Loop(old(Now()))
    {
      if live && (relist || dirty != {}) {
        running := true;
        if relist {
          relist := false;
          dirty := {};
          phase := Listing(0, map[], true);
        } else {
          var ids := dirty;
          dirty := {};
          phase := ReadingDirty(ids);
        }
      } else {
        running := false;
        phase := NoPass;
      }
    }

    method PumpNow()
      modifies this
      ensures Now() == Wake(old(Now()))
    {
      if running {
        return;
      }
      LoopOn();
    }

    method Notice(id: string)
      modifies this
      ensures Now() == Step(old(Now()), Notices(id))
    {
      dirty := dirty + {id};
      PumpNow();
    }

    /** A resync, a reconnect, or a session this tab opened. */
    method NoticeAll()
      modifies this
      ensures Now() == Step(old(Now()), NoticesAll)
    {
      relist := true;
      PumpNow();
    }

    method TimerFired()
      requires timer
      modifies this
      ensures Now() == Step(old(Now()), TimerFires)
    {
      timer := false;
      relist := true;
      PumpNow();
    }

    method Stop()
      modifies this
      ensures Now() == Step(old(Now()), Stops)
    {
      live, timer, open := false, false, false;
    }

    /** Tell the caller a changed list; it may stop the watch as it is told. */
    method Tell(quits: bool)
      requires live
      modifies this
      ensures var stopped := quits && old(shown) != Some(rows);
        Now() == old(Now()).(shown := Some(rows), live := !stopped,
          timer := old(timer) && !stopped, open := old(open) && !stopped)
    {
      if shown == Some(rows) {
        return;
      }
      shown := Some(rows);
      if quits {
        live, timer, open := false, false, false;
      }
    }

    /** Hear exactly the sessions listed. */
    method Listen()
      modifies this
      ensures Now() == old(Now()).(subscribed := Some(rows.Keys),
                                   open := old(subscribed) != Some(rows.Keys) || old(open))
    {
      if subscribed == Some(rows.Keys) {
        return;
      }
      subscribed := Some(rows.Keys);
      open := true;
    }

    method SettlePass(next: map<string, string>, complete: bool, quits: bool)
      modifies this
      ensures Now() == Settled(old(Now()), next, complete, quits)
    {
      rows := next;
      if live {
        Tell(quits);
        Listen();
        if !complete {
          timer := true;
        }
      }
    }

    method EndPass(next: map<string, string>, complete: bool, quits: bool)
      modifies this
      ensures Now() == Ends(old(Now()), next, complete, quits)
    {
      SettlePass(next, complete, quits);
      LoopOn();
    }

    method PassFailed()
      requires !phase.NoPass?
      modifies this
      ensures Now() == Step(old(Now()), Fails)
    {
      if live {
        timer := true;
      }
      LoopOn();
    }

    method SessionsListed(ids: set<string>)
      requires phase.Listing?
      modifies this
      ensures Now() == Step(old(Now()), Lists(ids))
    {
      phase := ReadingMode(phase.mode, phase.next, phase.complete, ids);
    }

    method NextMode(got: map<string, Read>)
      requires phase.ReadingMode? && got.Keys == phase.ids
      modifies this
      ensures Now() == Step(old(Now()), ReadsMode(got))
    {
      NextModeIs(Now(), got);
      phase := Listing(phase.mode + 1, phase.next + RowsRead(got), phase.complete && AllComplete(got));
    }

    method LastMode(got: map<string, Read>, quits: bool)
      requires phase.ReadingMode? && got.Keys == phase.ids
      modifies this
      ensures Now() == Step(old(Now()), ReadsLast(got, quits))
    {
      LastReadIs(Now(), got, quits);
      EndPass(phase.next + RowsRead(got), phase.complete && AllComplete(got), quits);
    }

    method ModeRead(got: map<string, Read>, modes: nat, quits: bool)
      requires phase.ReadingMode? && got.Keys == phase.ids
      modifies this
      ensures Now() == Step(old(Now()), if old(phase.mode) + 1 < modes then ReadsMode(got) else ReadsLast(got, quits))
    {
      if phase.mode + 1 < modes {
        NextMode(got);
      } else {
        LastMode(got, quits);
      }
    }

    method DirtyRead(got: map<string, Read>, quits: bool)
      requires phase.ReadingDirty? && got.Keys == phase.ids * rows.Keys
      modifies this
      ensures Now() == Step(old(Now()), ReadsDirty(got, quits))
    {
      DirtyReadIs(Now(), got, quits);
      var next, complete := rows + RowsRead(got), AllComplete(got);
      EndPass(next, complete, quits);
    }
  }
}
