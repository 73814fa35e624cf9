/**
 `onNotice`: a view that reads now and again on every notice, one read at a
 time, retries a failed read on its own, and reports only changes.

 A step is one turn of the event loop: a notice, the end of the read in
 flight, the retry timer, or the caller's stop. Any of them may come between a
 read's start and its end.
 */
module NoticeWatch {
  import opened Wrappers

  // ----- Retrying a failed read -----

  function Pow2(n: nat): nat {
    if n == 0 then 1 else 2 * Pow2(n - 1)
  }

  /** 1 s and doubling, up to 30 s. */
  function Backoff(attempt: nat): nat {
    var ms := 1000 * Pow2(attempt);
    if ms < 30_000 then ms else 30_000
  }

  /** A waiting try and how long each was set to wait. */
  datatype Retry = Retry(attempt: nat, timer: Option<nat>, delays: seq<nat>)

  function RetryFailed(r: Retry): Retry {
    Retry(r.attempt + 1, Some(Backoff(r.attempt)), r.delays + [Backoff(r.attempt)])
  }

  function RetrySucceeded(r: Retry): Retry {
    r.(attempt := 0)
  }

  // ----- What the callbacks were told -----

  /** A read's value, as its JSON text; `undefined` has none. */
  type Json = Option<string>

  datatype Told = Told(last: Json, reports: seq<Json>, stale: bool, stales: seq<bool>)

  /** No value is reported twice in a row, and `onStale` hears true, false, true, and so on. */
  ghost predicate ToldOk(t: Told) {
    && (forall i, j :: 0 <= i < j < |t.reports| && j == i + 1 ==> t.reports[i] != t.reports[j])
    && t.last == (if t.reports == [] then None else t.reports[|t.reports| - 1])
    && (forall i :: 0 <= i < |t.stales| ==> t.stales[i] == (i % 2 == 0))
    && t.stale == (|t.stales| % 2 == 1)
  }

  function Report(t: Told, value: Json): Told {
    t.(last := value, reports := if value != t.last then t.reports + [value] else t.reports)
  }

  function TellStale(t: Told, stale: bool): Told {
    t.(stale := stale, stales := if t.stale != stale then t.stales + [stale] else t.stales)
  }

  lemma ReportOk(t: Told, value: Json)
    requires ToldOk(t)
    ensures ToldOk(Report(t, value)) && Report(t, value).last == value
  {
  }

  lemma TellStaleOk(t: Told, stale: bool)
    requires ToldOk(t)
    ensures ToldOk(TellStale(t, stale)) && TellStale(t, stale).stale == stale
  {
  }

  // ----- The watch -----

  /**
   The watch's flags, its retry, and what it told; then, on a clock of
   event-loop turns, when it last heard a notice and last started a read, how
   many reads started and ended, and how the last one went.
   */
  datatype Watch = Watch(
    live: bool, running: bool, queued: bool, retry: Retry, told: Told,
    clock: nat, heardAt: nat, startedAt: nat, started: nat, ended: nat,
    failed: bool, latest: Option<Json>)

  /**
   What happens next. A callback the watch makes may itself stop the watch:
   `quits` says so of the change callback, `quitsStale` of the stale one.
   */
  datatype Event =
    | Hears
    | Resolves(value: Json, quits: bool, quitsStale: bool)
    | Rejects(quitsStale: bool)
    | TimerFires
    | Stops

  /** Read now, or after the read in flight. */
  function Tick(w: Watch): Watch {
    var starts := w.live && !w.running;
    w.(running := w.running || starts,
       queued := w.queued || (w.live && w.running),
       startedAt := if starts then w.clock else w.startedAt,
       started := if starts then w.started + 1 else w.started)
  }

  function Stop(w: Watch): Watch {
    w.(live := false, retry := w.retry.(timer := None))
  }

  /** Tell a live watch's caller something new, which may make it stop the watch. */
  function Tell(w: Watch, told: Told, quits: bool): Watch {
    var stops := w.live && quits && (told.last != w.told.last || told.stale != w.told.stale);
    w.(told := if w.live then told else w.told,
       live := w.live && !stops,
       retry := w.retry.(timer := if stops then None else w.retry.timer))
  }

  /** The try block, from the value on. */
  function Succeed(w: Watch, value: Json, quits: bool, quitsStale: bool): Watch {
    var w1 := w.(retry := RetrySucceeded(w.retry), failed := false, latest := Some(value));
    var w2 := Tell(w1, Report(w1.told, value), quits);
    Tell(w2, TellStale(w2.told, false), quitsStale)
  }

  /** The catch block. */
  function Fail(w: Watch, quitsStale: bool): Watch {
    var w1 := w.(failed := true);
    var w2 := if w1.live then w1.(retry := RetryFailed(w1.retry)) else w1;
    Tell(w2, TellStale(w2.told, true), quitsStale)
  }

  /** The end of a read: start the one that waited, if any. */
  function Finish(w: Watch): Watch {
    var w1 := w.(running := false, ended := w.ended + 1);
    if w1.queued then Tick(w1.(queued := false)) else w1
  }

  function Step(w0: Watch, e: Event): Watch {
    var w := w0.(clock := w0.clock + 1);
    match e
    case Hears => Tick(w.(heardAt := w.clock))
    case Resolves(value, quits, quitsStale) =>
      if w.running then Finish(Succeed(w, value, quits, quitsStale)) else w
    case Rejects(quitsStale) =>
      if w.running then Finish(Fail(w, quitsStale)) else w
    case TimerFires => if w.retry.timer.Some? then Tick(w.(retry := w.retry.(timer := None))) else w
    case Stops => Stop(w)
  }

  /** A watch just made: subscribed, and reading. */
  function Made(): Watch {
    Watch(true, true, false, Retry(0, None, []), Told(None, [], false, []), 0, 0, 0, 1, 0, false, None)
  }

  function After(es: seq<Event>): Watch {
    if es == [] then Made()
    else Step(After(es[..|es| - 1]), es[|es| - 1])
  }

  // ----- What every reachable watch satisfies -----

  /** The loop's flags: no read overlaps another, and what was heard waits for a read or has had one. */
  ghost predicate LoopOk(w: Watch) {
    && (w.queued ==> w.running)
    && (w.live && !w.queued ==> w.startedAt >= w.heardAt)
    && w.heardAt <= w.clock && w.startedAt <= w.clock
    && w.started == w.ended + (if w.running then 1 else 0)
    && (w.retry.timer.Some? ==> w.live)
    && (w.live && w.failed ==> w.retry.timer.Some? || w.running)
  }

  /** What a live watch shows: the last read's value, once one was read, and whether the last read failed. */
  ghost predicate ShowsLatest(w: Watch) {
    && (w.live ==> w.told.stale == w.failed)
    && (w.live && w.latest.Some? ==> w.latest.value == w.told.last)
    && (!w.running && !w.failed ==> w.latest.Some?)
  }

  /** The end of a read as the loop sees it: nothing moved but what was told and the retry. */
  ghost predicate Ended(w: Watch, w': Watch) {
    && w' == w.(live := w'.live, retry := w'.retry, told := w'.told, failed := w'.failed, latest := w'.latest)
    && (w'.live ==> w.live)
    && (w'.retry.timer.Some? ==> w'.live)
    && (w'.live && w'.failed ==> w'.retry.timer.Some?)
    && (w'.failed || w'.latest.Some?)
  }

  lemma SucceedOk(w: Watch, value: Json, quits: bool, quitsStale: bool)
    requires LoopOk(w) && ShowsLatest(w)
    ensures var w' := Succeed(w, value, quits, quitsStale);
      Ended(w, w') && ShowsLatest(w')
  {
  }

  lemma FailOk(w: Watch, quitsStale: bool)
    requires LoopOk(w) && ShowsLatest(w)
    ensures var w' := Fail(w, quitsStale);
      Ended(w, w') && ShowsLatest(w')
  {
  }

  lemma FinishOk(w: Watch, w': Watch)
    requires LoopOk(w) && w.running && Ended(w, w') && ShowsLatest(w')
    ensures LoopOk(Finish(w')) && ShowsLatest(Finish(w'))
  {
  }

  lemma LoopStep(w: Watch, e: Event)
    requires LoopOk(w) && ShowsLatest(w)
    ensures LoopOk(Step(w, e)) && ShowsLatest(Step(w, e))
  {
    var w0 := w.(clock := w.clock + 1);
    match e
    case Resolves(value, quits, quitsStale) =>
      if w.running {
        SucceedOk(w0, value, quits, quitsStale);
        FinishOk(w0, Succeed(w0, value, quits, quitsStale));
      }
    case Rejects(quitsStale) =>
      if w.running {
        FailOk(w0, quitsStale);
        FinishOk(w0, Fail(w0, quitsStale));
      }
    case _ =>
  }

  lemma ToldStep(w: Watch, e: Event)
    requires ToldOk(w.told)
    ensures ToldOk(Step(w, e).told)
  {
    match e
    case Resolves(value, _, _) =>
      ReportOk(w.told, value);
      TellStaleOk(w.told, false);
      TellStaleOk(Report(w.told, value), false);
    case Rejects(_) => TellStaleOk(w.told, true);
    case _ =>
  }

  lemma {:induction false} AfterOk(es: seq<Event>)
    ensures var w := After(es);
      LoopOk(w) && ShowsLatest(w) && ToldOk(w.told)
  {
    if es != [] {
      var w, e := After(es[..|es| - 1]), es[|es| - 1];
      AfterOk(es[..|es| - 1]);
      LoopStep(w, e);
      ToldStep(w, e);
    }
  }

  // ----- The promises -----

  /**
   No notice is missed. Whatever came in whatever order, reads never overlap,
   and a live watch with no read in flight has started one since it last heard
   a notice; either that read succeeded and its value is the last one reported,
   or it failed, the caller was told, and a try is waiting.
   */
  lemma NeverMissesANotice(es: seq<Event>)
    ensures var w := After(es);
      && w.ended <= w.started <= w.ended + 1
      && (w.live && !w.running ==>
            && w.startedAt >= w.heardAt
            && (if w.failed then w.told.stale && w.retry.timer.Some?
                else !w.told.stale && w.latest == Some(w.told.last)))
  {
    AfterOk(es);
  }

  /** Consecutive reports differ, and `onStale` is told true first and then alternates. */
  lemma TellsOnlyChanges(es: seq<Event>)
    ensures ToldOk(After(es).told)
  {
    AfterOk(es);
  }

  /** `w'` is a stopped watch that has told nothing, read nothing and set no timer since `w`. */
  predicate Silent(w: Watch, w': Watch) {
    && !w'.live && w'.told == w.told && w'.started == w.started
    && w'.retry.delays == w.retry.delays && w'.retry.timer == None
  }

  lemma StoppedStep(w: Watch, e: Event)
    requires !w.live && w.retry.timer == None
    ensures Silent(w, Step(w, e))
  {
  }

  /** A stopped watch tells nothing more, starts no read and waits on no timer, whatever comes. */
  lemma {:induction false} StopIsFinal(es: seq<Event>, more: seq<Event>)
    requires !After(es).live
    ensures Silent(After(es), After(es + more))
    decreases |more|
  {
    if more == [] {
      assert es + more == es;
      StoppedHasNoTimer(es);
    } else {
      var n := |more| - 1;
      StopIsFinal(es, more[..n]);
      var w := After(es + more[..n]);
      StoppedStep(w, more[n]);
      assert After(es + more) == Step(w, more[n]) by {
        assert (es + more)[..|es| + n] == es + more[..n];
      }
    }
  }

  lemma StoppedHasNoTimer(es: seq<Event>)
    requires !After(es).live
    ensures After(es).retry.timer == None
  {
    AfterOk(es);
  }

  /** How many reads in a row have failed. */
  function Streak(es: seq<Event>): nat {
    if es == [] then 0
    else StreakAfter(After(es[..|es| - 1]), es[|es| - 1], Streak(es[..|es| - 1]))
  }

  lemma BackoffDoubles(n: nat)
    ensures 1000 <= Backoff(n) <= 30_000
    ensures Backoff(0) == 1000
    ensures Backoff(n + 1) == if 2 * Backoff(n) < 30_000 then 2 * Backoff(n) else 30_000
  {
    PowPositive(n);
  }

  lemma {:induction false} PowPositive(n: nat)
    ensures Pow2(n) >= 1
  {
    if n > 0 {
      PowPositive(n - 1);
    }
  }

  /** What one event does to the retry of a watch. */
  lemma RetryStep(w: Watch, e: Event)
    ensures var w' := Step(w, e);
      && (w'.live ==> w.live)
      && (w'.retry.delays == w.retry.delays || w'.retry.delays == w.retry.delays + [Backoff(w.retry.attempt)])
      && (w'.live ==>
            if e.Rejects? && w.running then
              w'.retry.attempt == w.retry.attempt + 1 && w'.retry.delays == w.retry.delays + [Backoff(w.retry.attempt)]
            else
              w'.retry.attempt == (if e.Resolves? && w.running then 0 else w.retry.attempt)
              && w'.retry.delays == w.retry.delays)
  {
  }

  /** The last delay a live watch set is the one its streak of failures calls for, and every delay is in range. */
  ghost predicate DelaysOk(w: Watch, streak: nat) {
    && (w.live ==> w.retry.attempt == streak)
    && (w.live && streak > 0 ==>
          w.retry.delays != [] && w.retry.delays[|w.retry.delays| - 1] == Backoff(streak - 1))
    && (forall d :: d in w.retry.delays ==> 1000 <= d <= 30_000)
  }

  function StreakAfter(w: Watch, e: Event, streak: nat): nat {
    if w.running && e.Resolves? then 0 else if w.running && e.Rejects? then streak + 1 else streak
  }

  lemma DelaysStep(w: Watch, e: Event, streak: nat)
    requires DelaysOk(w, streak)
    ensures DelaysOk(Step(w, e), StreakAfter(w, e, streak))
  {
    RetryStep(w, e);
    BackoffDoubles(w.retry.attempt);
  }

  lemma {:induction false} DelaysFollowTheStreak(es: seq<Event>)
    ensures DelaysOk(After(es), Streak(es))
  {
    if es != [] {
      DelaysFollowTheStreak(es[..|es| - 1]);
      DelaysStep(After(es[..|es| - 1]), es[|es| - 1], Streak(es[..|es| - 1]));
    }
  }

  // ----- What causes a read, and what is told of it -----

  /** `e` ends the read `w` has in flight. */
  predicate EndsRead(w: Watch, e: Event) {
    w.running && (e.Resolves? || e.Rejects?)
  }

  /** A notice heard, or a retry that was waiting and fires. */
  predicate Wakes(w: Watch, e: Event) {
    e.Hears? || (e.TimerFires? && w.retry.timer.Some?)
  }

  /** How many wakes came. */
  function WakeCount(es: seq<Event>): nat {
    if es == [] then 0
    else
      var n := |es| - 1;
      WakeCount(es[..n]) + if Wakes(After(es[..n]), es[n]) then 1 else 0
  }

  /** How many reads ended. */
  function EndCount(es: seq<Event>): nat {
    if es == [] then 0
    else
      var n := |es| - 1;
      EndCount(es[..n]) + if EndsRead(After(es[..n]), es[n]) then 1 else 0
  }

  /** A wake came while the read now in flight was out. */
  predicate WokenSince(es: seq<Event>) {
    es != []
    && var n := |es| - 1;
       var w := After(es[..n]);
       w.running && !EndsRead(w, es[n]) && (WokenSince(es[..n]) || Wakes(w, es[n]))
  }

  /** The values the reads gave, in order. */
  function Values(es: seq<Event>): seq<Json> {
    if es == [] then []
    else
      var n := |es| - 1;
      Values(es[..n]) + if EndsRead(After(es[..n]), es[n]) && es[n].Resolves? then [es[n].value] else []
  }

  /** Whether each read failed, in order. */
  function Failures(es: seq<Event>): seq<bool> {
    if es == [] then []
    else
      var n := |es| - 1;
      Failures(es[..n]) + if EndsRead(After(es[..n]), es[n]) then [es[n].Rejects?] else []
  }

  function LastOr<T>(none: T, vs: seq<T>): T {
    if vs == [] then none else vs[|vs| - 1]
  }

  /** The values of `vs` that differ from the one before them, the first from `none`. */
  function Changes<T(==)>(none: T, vs: seq<T>): seq<T> {
    if vs == [] then []
    else
      var n := |vs| - 1;
      Changes(none, vs[..n]) + if vs[n] != LastOr(none, vs[..n]) then [vs[n]] else []
  }

  /** The delay of the retry that waits, if one does: set by a failed read, by its place in the streak. */
  function Owed(es: seq<Event>): Option<nat> {
    if es == [] then None
    else
      var n := |es| - 1;
      if EndsRead(After(es[..n]), es[n]) && es[n].Rejects? then Some(Backoff(Streak(es[..n])))
      else if es[n].TimerFires? then None
      else Owed(es[..n])
  }

  /** The event is one in which the caller, told something new, stops the watch. */
  predicate StopsInTell(w: Watch, e: Event, values: seq<Json>, failures: seq<bool>) {
    && EndsRead(w, e)
    && ((e.Resolves? && e.quits && e.value != LastOr(None, values))
        || (e.quitsStale && e.Rejects? != LastOr(false, failures)))
  }

  /** What a live watch's flags, retry and reports say of the events so far. */
  ghost predicate Accounts(w: Watch, es: seq<Event>) {
    && w.ended == EndCount(es)
    && EndCount(es) + (if w.running then 1 else 0) + (if w.queued then 1 else 0) <= 1 + WakeCount(es)
    && (w.live ==> (w.queued <==> WokenSince(es)))
    && (w.live ==> w.retry.timer == Owed(es))
    && (w.live ==> ToldAfter(w, Values(es), Failures(es)))
  }

  lemma AfterSnoc(es: seq<Event>, e: Event)
    ensures (es + [e])[..|es|] == es && After(es + [e]) == Step(After(es), e)
  {
    assert (es + [e])[..|es|] == es;
  }

  lemma ChangesSnoc<T>(none: T, vs: seq<T>, v: T)
    ensures Changes(none, vs + [v]) == Changes(none, vs) + if v != LastOr(none, vs) then [v] else []
    ensures LastOr(none, vs + [v]) == v
  {
    assert (vs + [v])[..|vs|] == vs;
  }

  lemma CountStep(es: seq<Event>, e: Event)
    requires LoopOk(After(es)) && Accounts(After(es), es)
    ensures var w, es' := After(es + [e]), es + [e];
      && w.ended == EndCount(es')
      && EndCount(es') + (if w.running then 1 else 0) + (if w.queued then 1 else 0) <= 1 + WakeCount(es')
      && (w.live ==> (w.queued <==> WokenSince(es')))
  {
    AfterSnoc(es, e);
  }

  lemma OwedStep(es: seq<Event>, e: Event)
    requires Accounts(After(es), es) && DelaysOk(After(es), Streak(es)) && After(es + [e]).live
    ensures After(es + [e]).retry.timer == Owed(es + [e])
  {
    AfterSnoc(es, e);
  }

  lemma ResolvedTells(w: Watch, value: Json, quits: bool, quitsStale: bool)
    requires w.live && w.running
    ensures var w' := Step(w, Resolves(value, quits, quitsStale));
      && w'.told.reports == w.told.reports + (if value != w.told.last then [value] else [])
      && (w'.live <==> !(quits && value != w.told.last) && !(quitsStale && w.told.stale))
      && (w'.live ==> w'.told.last == value && !w'.told.stale
                      && w'.told.stales == w.told.stales + if w.told.stale then [false] else [])
  {
  }

  lemma RejectedTells(w: Watch, quitsStale: bool)
    requires w.live && w.running
    ensures var w' := Step(w, Rejects(quitsStale));
      && w'.told.reports == w.told.reports && w'.told.last == w.told.last
      && (w'.live <==> w.told.stale || !quitsStale)
      && (w'.live ==> w'.told.stale && w'.told.stales == w.told.stales + if w.told.stale then [] else [true])
  {
  }

  lemma OthersTellNothing(w: Watch, e: Event)
    requires w.live && !EndsRead(w, e)
    ensures Step(w, e).told == w.told && (Step(w, e).live <==> !e.Stops?)
  {
  }

  /** What one event adds to the values read and the failures. */
  lemma LogsSnoc(es: seq<Event>, e: Event)
    ensures var w, es' := After(es), es + [e];
      && Values(es') == (if EndsRead(w, e) && e.Resolves? then Values(es) + [e.value] else Values(es))
      && Failures(es') == (if EndsRead(w, e) then Failures(es) + [e.Rejects?] else Failures(es))
  {
    AfterSnoc(es, e);
    assert Values(es) + [] == Values(es) && Failures(es) + [] == Failures(es);
  }

  /** What a watch has told of the values read and of whether the reads failed. */
  ghost predicate ToldAfter(w: Watch, vs: seq<Json>, fs: seq<bool>) {
    && w.told.reports == Changes(None, vs)
    && (w.live ==> w.told.stales == Changes(false, fs))
    && (w.live ==> w.told.last == LastOr(None, vs) && w.told.stale == LastOr(false, fs))
  }

  /** What one event tells: a read's value if it changed, and then whether it failed, if that changed. */
  lemma TellStep(w: Watch, e: Event, vs: seq<Json>, fs: seq<bool>)
    requires w.live && ToldAfter(w, vs, fs)
    ensures ToldAfter(Step(w, e), if EndsRead(w, e) && e.Resolves? then vs + [e.value] else vs,
                      if EndsRead(w, e) then fs + [e.Rejects?] else fs)
    ensures Step(w, e).live <==> !e.Stops? && !StopsInTell(w, e, vs, fs)
  {
    if !EndsRead(w, e) {
      OthersTellNothing(w, e);
    } else if e.Resolves? {
      ResolvedTells(w, e.value, e.quits, e.quitsStale);
      ChangesSnoc(None, vs, e.value);
      ChangesSnoc(false, fs, false);
    } else {
      RejectedTells(w, e.quitsStale);
      ChangesSnoc(false, fs, true);
    }
  }

  lemma LiveBefore(w: Watch, e: Event)
    requires Step(w, e).live
    ensures w.live
  {
  }

  lemma {:induction false} AccountsHold(es: seq<Event>)
    ensures Accounts(After(es), es)
  {
    if es != [] {
      var n := |es| - 1;
      assert es[..n] + [es[n]] == es;
      AccountsHold(es[..n]);
      AfterOk(es[..n]);
      CountStep(es[..n], es[n]);
      if After(es).live {
        LiveBefore(After(es[..n]), es[n]);
        DelaysFollowTheStreak(es[..n]);
        OwedStep(es[..n], es[n]);
        TellStep(After(es[..n]), es[n], Values(es[..n]), Failures(es[..n]));
        LogsSnoc(es[..n], es[n]);
      }
    }
  }

  /**
   Every read has a cause. Of the reads that ended and the one in flight, all but
   the first answer a wake of their own; and a live watch is reading after the end
   of a read exactly when a wake came while that read was out, however many did,
   and after any other event exactly when it was reading or that event is a wake.
   */
  lemma ReadsOnlyWhenWoken(es: seq<Event>, e: Event)
    ensures After(es).started == EndCount(es) + (if After(es).running then 1 else 0) <= 1 + WakeCount(es)
    ensures After(es + [e]).live ==>
      (After(es + [e]).running
       <==> if EndsRead(After(es), e) then WokenSince(es) else After(es).running || Wakes(After(es), e))
  {
    AccountsHold(es);
    AfterSnoc(es, e);
    AfterOk(es);
    if After(es + [e]).live {
      LiveBefore(After(es), e);
    }
  }

  /**
   What a live watch has told: of the values read, those that changed; of whether
   the reads failed, the changes. Its retry waits exactly when a read failed since
   the last retry, as long as the streak of failures calls for.
   */
  lemma TellsTheReads(es: seq<Event>)
    requires After(es).live
    ensures After(es).told.reports == Changes(None, Values(es))
    ensures After(es).told.stales == Changes(false, Failures(es))
    ensures After(es).retry.timer == Owed(es)
  {
    AccountsHold(es);
  }

  /** A live watch stops exactly at its caller's stop, and a read that ends then still reports its change. */
  lemma StopsWhenAsked(es: seq<Event>, e: Event)
    requires After(es).live
    ensures After(es + [e]).live <==> !e.Stops? && !StopsInTell(After(es), e, Values(es), Failures(es))
    ensures After(es + [e]).told.reports == Changes(None, Values(es + [e]))
  {
    AccountsHold(es);
    AfterSnoc(es, e);
    TellStep(After(es), e, Values(es), Failures(es));
    LogsSnoc(es, e);
  }

  // ----- The watch as it is written -----

  /** The closure's variables, and what its callbacks were told. */
  class NoticeWatch {
    var live: bool
    var stale: bool
    var last: Json
    var running: bool
    var queued: bool
    var attempt: nat
    var timer: Option<nat>
    var reports: seq<Json>
    var stales: seq<bool>
    var delays: seq<nat>
    ghost var clock: nat
    ghost var heardAt: nat
    ghost var startedAt: nat
    ghost var started: nat
    ghost var ended: nat
    ghost var failed: bool
    ghost var latest: Option<Json>

    ghost function Now(): Watch
      reads this
    {
      Watch(live, running, queued, Retry(attempt, timer, delays), Told(last, reports, stale, stales),
            clock, heardAt, startedAt, started, ended, failed, latest)
    }

    constructor ()
      ensures Now() == Made()
    {
      live, stale, last, running, queued := true, false, None, true, false;
      attempt, timer, reports, stales, delays := 0, None, [], [], [];
      clock, heardAt, startedAt, started, ended, failed, latest := 0, 0, 0, 1, 0, false, None;
    }

    method TickNow()
      modifies this
      ensures Now() == Tick(old(Now()))
    {
      if !live {
        return;
      }
      if running {
        queued := true;
        return;
      }
      running := true;
      startedAt, started := clock, started + 1;
    }

    method StopNow()
      modifies this
      ensures Now() == Stop(old(Now()))
    {
      live := false;
      timer := None;
    }

    method NoticeHeard()
      modifies this
      ensures Now() == Step(old(Now()), Hears)
    {
      clock := clock + 1;
      heardAt := clock;
      TickNow();
    }

    method TimerFired()
      requires timer.Some?
      modifies this
      ensures Now() == Step(old(Now()), TimerFires)
    {
      clock := clock + 1;
      timer := None;
      TickNow();
    }

    method Unsubscribe()
      modifies this
      ensures Now() == Step(old(Now()), Stops)
    {
      clock := clock + 1;
      StopNow();
    }

    method SetStale(value: bool, quits: bool)
      modifies this
      ensures Now() == Tell(old(Now()), TellStale(old(Now().told), value), quits)
    {
      if live && stale != value {
        stale := value;
        stales := stales + [value];
        if quits {
          StopNow();
        }
      }
    }

    method FinishNow()
      modifies this
      ensures Now() == Finish(old(Now()))
    {
      running := false;
      ended := ended + 1;
      if queued {
        queued := false;
        TickNow();
      }
    }

    method SetLast(value: Json, quits: bool)
      modifies this
      ensures Now() == Tell(old(Now()), Report(old(Now().told), value), quits)
    {
      if live && value != last {
        last := value;
        reports := reports + [value];
        if quits {
          StopNow();
        }
      }
    }

    method SucceedNow(value: Json, quits: bool, quitsStale: bool)
      modifies this
      ensures Now() == Succeed(old(Now()), value, quits, quitsStale)
    {
      latest, failed := Some(value), false;
      attempt := 0;
      SetLast(value, quits);
      SetStale(false, quitsStale);
    }

    method FailNow(quitsStale: bool)
      modifies this
      ensures Now() == Fail(old(Now()), quitsStale)
    {
      failed := true;
      if live {
        timer := Some(Backoff(attempt));
        delays := delays + [Backoff(attempt)];
        attempt := attempt + 1;
      }
      SetStale(true, quitsStale);
    }

    method ReadResolved(value: Json, quits: bool, quitsStale: bool)
      requires running
      modifies this
      ensures Now() == Step(old(Now()), Resolves(value, quits, quitsStale))
    {
      clock := clock + 1;
      SucceedNow(value, quits, quitsStale);
      FinishNow();
    }

    method ReadRejected(quitsStale: bool)
      requires running
      modifies this
      ensures Now() == Step(old(Now()), Rejects(quitsStale))
    {
      clock := clock + 1;
      FailNow(quitsStale);
      FinishNow();
    }
  }
}
