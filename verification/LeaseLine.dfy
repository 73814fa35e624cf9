/**
 The Redis keys of one lease line and the five Lua scripts that change them.

 A line is a sorted set of tickets, three hashes by ticket and a counter. Every
 script is one function from the keys as they were, and the clock it read, to
 the keys as it left them and its answer.
 */
module LeaseLine {
  import opened Wrappers

  /** A member of the sorted set with its score. */
  datatype Entry = Entry(score: nat, ticket: string)

  /** The five Redis keys of one line. A missing key is the empty value; a missing counter is 0. */
  datatype Line = Line(
    line: seq<Entry>,
    exp: map<string, int>,
    req: map<string, string>,
    job: map<string, string>,
    counter: nat)

  const EMPTY_LINE := Line([], map[], map[], map[], 0)

  // ----- Sorted sets -----

  predicate LexLess(a: string, b: string) {
    if a == [] then b != []
    else b != [] && (a[0] < b[0] || (a[0] == b[0] && LexLess(a[1..], b[1..])))
  }

  /** Redis orders a sorted set by score, then by member. */
  predicate Before(a: Entry, b: Entry) {
    a.score < b.score || (a.score == b.score && LexLess(a.ticket, b.ticket))
  }

  function ZRem(z: seq<Entry>, ticket: string): seq<Entry> {
    if z == [] then []
    else if z[0].ticket == ticket then ZRem(z[1..], ticket)
    else [z[0]] + ZRem(z[1..], ticket)
  }

  function ZInsert(z: seq<Entry>, e: Entry): seq<Entry> {
    if z == [] || Before(e, z[0]) then [e] + z else [z[0]] + ZInsert(z[1..], e)
  }

  function ZAdd(z: seq<Entry>, score: nat, ticket: string): seq<Entry> {
    ZInsert(ZRem(z, ticket), Entry(score, ticket))
  }

  predicate InLine(l: Line, ticket: string) {
    ticket in Members(Tickets(l.line))
  }

  function Get<T>(m: map<string, T>, key: string, default: T): T {
    if key in m then m[key] else default
  }

  // ----- The scripts -----

  datatype TurnAnswer = First | Behind | Missing

  datatype Script =
    | TAKE(ticket: string, request: string, ifEmpty: bool, leaseMs: int, job: string)
    | TURN(ticket: string)
    | RENEW(ticket: string, leaseMs: int)
    | REMOVE(ticket: string, onlyIfExpired: bool)
    | EXPIRED

  /** A lapsed place, and the job recorded on it. */
  datatype Lapsed = Lapsed(ticket: string, job: string)

  /**
   What a script answers. REMOVE's caller sees only the job to wake: it reads
   `Kept` and `Dropped(None)` alike, and the model tells them apart.
   */
  datatype Reply =
    | Placed
    | Held(request: string)
    | Turned(answer: TurnAnswer)
    | Renewed(kept: bool)
    | Kept
    | Dropped(next: Option<string>)
    | Found(lapsed: seq<Lapsed>)

  predicate HasExpired(l: Line, now: int, ticket: string) {
    Get(l.exp, ticket, 0) < now
  }

  function Take(l: Line, now: int, s: Script): (Line, Reply)
    requires s.TAKE?
  {
    if s.ifEmpty && |l.line| > 0 then
      (l, Held(Get(l.req, l.line[0].ticket, "")))
    else
      var n := l.counter + 1;
      (Line(ZAdd(l.line, n, s.ticket), l.exp[s.ticket := now + s.leaseMs], l.req[s.ticket := s.request],
            l.job[s.ticket := s.job], n), Placed)
  }

  function Turn(l: Line, ticket: string): TurnAnswer {
    if !InLine(l, ticket) then Missing
    else if |l.line| > 0 && l.line[0].ticket == ticket then First
    else Behind
  }

  function Renew(l: Line, now: int, ticket: string, leaseMs: int): (Line, Reply) {
    if !InLine(l, ticket) then (l, Renewed(false))
    else (l.(exp := l.exp[ticket := now + leaseMs]), Renewed(true))
  }

  function Remove(l: Line, now: int, ticket: string, onlyIfExpired: bool): (Line, Reply) {
    if !InLine(l, ticket) then (l, Kept)
    else if onlyIfExpired && !HasExpired(l, now, ticket) then (l, Kept)
    else
      var wasFirst := |l.line| > 0 && l.line[0].ticket == ticket;
      var l1 := Line(ZRem(l.line, ticket), l.exp - {ticket}, l.req - {ticket}, l.job - {ticket}, l.counter);
      if l1.line == [] then (EMPTY_LINE, Dropped(None))
      else if !wasFirst then (l1, Dropped(None))
      else
        var head := l1.line[0].ticket;
        (l1, Dropped(if head in l1.job then Some(l1.job[head]) else None))
  }

  function ExpiredOf(l: Line, now: int, z: seq<Entry>): seq<Lapsed> {
    if z == [] then []
    else
      (if HasExpired(l, now, z[0].ticket) then [Lapsed(z[0].ticket, Get(l.job, z[0].ticket, ""))] else [])
      + ExpiredOf(l, now, z[1..])
  }

  function Exec(l: Line, now: int, s: Script): (Line, Reply) {
    match s
    case TAKE(_, _, _, _, _) => Take(l, now, s)
    case TURN(ticket) => (l, Turned(Turn(l, ticket)))
    case RENEW(ticket, leaseMs) => Renew(l, now, ticket, leaseMs)
    case REMOVE(ticket, onlyIfExpired) => Remove(l, now, ticket, onlyIfExpired)
    case EXPIRED => (l, Found(ExpiredOf(l, now, l.line)))
  }

  // ----- Jobs -----

  datatype JobState =
    | Waiting | Delayed | Prioritized | WaitingChildren
    | Active | Completed | Failed | Unknown

  /** The states of a job that is coming back to a worker. */
  predicate Returning(state: JobState) {
    state in {Waiting, Delayed, Prioritized, WaitingChildren}
  }

  /** The state reconcile reads for a recorded job; a place with no job is never looked up. */
  function StateOf(jobs: map<string, JobState>, job: string): JobState {
    if job == "" then Unknown else Get(jobs, job, Unknown)
  }

  /** BullMQ's promote: a delayed job starts waiting, any other job stays as it is. */
  function Promoted(jobs: map<string, JobState>, job: string): map<string, JobState> {
    if Get(jobs, job, Unknown) == Delayed then jobs[job := Waiting] else jobs
  }

  const LEASE_JOB_PREFIX := "fsd-lease-"

  /** The default job of a taken place, made from its ticket. */
  function LeaseJobId(ticket: string): string {
    LEASE_JOB_PREFIX + ticket
  }

  // ----- Queues of tickets -----

  function Tickets(z: seq<Entry>): (ts: seq<string>)
    ensures |ts| == |z|
    ensures forall i :: 0 <= i < |z| ==> ts[i] == z[i].ticket
  {
    seq(|z|, i requires 0 <= i < |z| => z[i].ticket)
  }

  function Members(ts: seq<string>): set<string> {
    if ts == [] then {} else {ts[0]} + Members(ts[1..])
  }

  /** `ts` in its order, without the tickets in `gone`. */
  function Surviving(ts: seq<string>, gone: set<string>): (r: seq<string>)
    ensures Members(r) == Members(ts) - gone
  {
    if ts == [] then []
    else if ts[0] in gone then Surviving(ts[1..], gone)
    else [ts[0]] + Surviving(ts[1..], gone)
  }

  predicate NoDuplicates(ts: seq<string>) {
    ts == [] || (ts[0] !in Members(ts[1..]) && NoDuplicates(ts[1..]))
  }

  /** Scores rise strictly along `z`, from `low` at least to `high` at most. */
  predicate Rising(z: seq<Entry>, low: nat, high: nat) {
    z == [] || (low <= z[0].score <= high && Rising(z[1..], z[0].score + 1, high))
  }

  /**
   What every script keeps: scores rise along the line and stay within the
   counter, the hashes hold exactly the line's tickets, and an empty line has
   no counter.
   */
  ghost predicate Wf(l: Line) {
    && Rising(l.line, 1, l.counter)
    && NoDuplicates(Tickets(l.line))
    && l.exp.Keys == Members(Tickets(l.line))
    && l.req.Keys == l.exp.Keys
    && l.job.Keys == l.exp.Keys
    && (l.line == [] ==> l.counter == 0)
  }

  lemma {:induction false} MembersIs(ts: seq<string>, t: string)
    ensures t in Members(ts) <==> t in ts
  {
    if ts != [] {
      MembersIs(ts[1..], t);
      assert ts == [ts[0]] + ts[1..];
    }
  }

  lemma {:induction false} SurvivingAppend(a: seq<string>, b: seq<string>, gone: set<string>)
    ensures Surviving(a + b, gone) == Surviving(a, gone) + Surviving(b, gone)
  {
    if a == [] {
      assert a + b == b;
    } else {
      assert (a + b)[1..] == a[1..] + b;
      SurvivingAppend(a[1..], b, gone);
    }
  }

  lemma {:induction false} SurvivingTwice(ts: seq<string>, gone: set<string>, more: set<string>)
    ensures Surviving(Surviving(ts, gone), more) == Surviving(ts, gone + more)
  {
    if ts != [] {
      SurvivingTwice(ts[1..], gone, more);
      if ts[0] !in gone {
        assert ([ts[0]] + Surviving(ts[1..], gone))[1..] == Surviving(ts[1..], gone);
      }
    }
  }

  lemma {:induction false} SurvivingAll(ts: seq<string>, gone: set<string>)
    requires Members(ts) !! gone
    ensures Surviving(ts, gone) == ts
  {
    if ts != [] {
      SurvivingAll(ts[1..], gone);
    }
  }

  lemma {:induction false} ZRemIs(z: seq<Entry>, ticket: string)
    ensures Tickets(ZRem(z, ticket)) == Surviving(Tickets(z), {ticket})
  {
    if z != [] {
      ZRemIs(z[1..], ticket);
      assert Tickets(z)[1..] == Tickets(z[1..]);
      assert Tickets(ZRem(z, ticket)) ==
        (if z[0].ticket == ticket then [] else [z[0].ticket]) + Tickets(ZRem(z[1..], ticket));
    }
  }

  lemma {:induction false} ZRemRising(z: seq<Entry>, ticket: string, low: nat, high: nat)
    requires Rising(z, low, high)
    ensures Rising(ZRem(z, ticket), low, high)
  {
    if z != [] {
      ZRemRising(z[1..], ticket, z[0].score + 1, high);
      if z[0].ticket == ticket {
        var r := ZRem(z[1..], ticket);
        assert r == [] || low <= r[0].score;
      } else {
        assert ([z[0]] + ZRem(z[1..], ticket))[1..] == ZRem(z[1..], ticket);
      }
    }
  }

  lemma {:induction false} SurvivingNoDuplicates(ts: seq<string>, gone: set<string>)
    requires NoDuplicates(ts)
    ensures NoDuplicates(Surviving(ts, gone))
  {
    if ts != [] {
      SurvivingNoDuplicates(ts[1..], gone);
      if ts[0] !in gone {
        assert ([ts[0]] + Surviving(ts[1..], gone))[1..] == Surviving(ts[1..], gone);
      }
    }
  }

  lemma {:induction false} NoDuplicatesAppend(ts: seq<string>, t: string)
    requires NoDuplicates(ts) && t !in Members(ts)
    ensures NoDuplicates(ts + [t]) && Members(ts + [t]) == Members(ts) + {t}
  {
    if ts == [] {
      assert ts + [t] == [t];
    } else {
      NoDuplicatesAppend(ts[1..], t);
      assert (ts + [t])[1..] == ts[1..] + [t];
    }
  }

  lemma {:induction false} FirstAt(ts: seq<string>, i: nat)
    requires NoDuplicates(ts) && i < |ts|
    ensures ts[i] !in Members(ts[..i]) && ts[i] in Members(ts)
    ensures Members(ts[..i + 1]) == Members(ts[..i]) + {ts[i]}
  {
    if i == 0 {
      assert ts[..1] == [ts[0]] && ts[..1][1..] == [];
    } else {
      FirstAt(ts[1..], i - 1);
      assert ts[i] == ts[1..][i - 1];
      assert ts[..i][1..] == ts[1..][..i - 1] && ts[..i + 1][1..] == ts[1..][..i];
    }
  }

  /** A score above every other goes last, and the scores still rise. */
  lemma {:induction false} ZAppend(z: seq<Entry>, e: Entry, low: nat, high: nat)
    requires Rising(z, low, high) && low <= e.score && high < e.score
    ensures ZInsert(z, e) == z + [e]
    ensures Rising(z + [e], low, e.score)
  {
    if z != [] {
      ZAppend(z[1..], e, z[0].score + 1, high);
      assert z + [e] == [z[0]] + (z[1..] + [e]);
      assert (z + [e])[1..] == z[1..] + [e];
    }
  }

  /** A take that is placed puts its ticket last. */
  lemma TakeOrder(l: Line, now: int, s: Script)
    requires Wf(l) && s.TAKE? && Take(l, now, s).1 == Placed
    ensures Take(l, now, s).0.line == ZRem(l.line, s.ticket) + [Entry(l.counter + 1, s.ticket)]
    ensures Tickets(Take(l, now, s).0.line) == Surviving(Tickets(l.line), {s.ticket}) + [s.ticket]
  {
    ZRemIs(l.line, s.ticket);
    ZRemRising(l.line, s.ticket, 1, l.counter);
    ZAppend(ZRem(l.line, s.ticket), Entry(l.counter + 1, s.ticket), 1, l.counter);
  }

  /** What one script does to the order of a line, whatever it does to the hashes. */
  lemma ScriptOrder(l: Line, now: int, s: Script)
    requires Wf(l)
    ensures Exec(l, now, s).1 == Placed ==>
      s.TAKE? && Tickets(Exec(l, now, s).0.line) == Surviving(Tickets(l.line), {s.ticket}) + [s.ticket]
    ensures Exec(l, now, s).1.Dropped? ==>
      s.REMOVE? && InLine(l, s.ticket) && Tickets(Exec(l, now, s).0.line) == Surviving(Tickets(l.line), {s.ticket})
    ensures Exec(l, now, s).1 != Placed && !Exec(l, now, s).1.Dropped? ==>
      Exec(l, now, s).0 == l.(exp := Exec(l, now, s).0.exp)
  {
    match s
    case TAKE(ticket, _, ifEmpty, _, _) => if Exec(l, now, s).1 == Placed { TakeOrder(l, now, s); }
    case REMOVE(ticket, onlyIfExpired) => ZRemIs(l.line, ticket);
    case _ =>
  }

  lemma TakeKeepsWf(l: Line, now: int, s: Script)
    requires Wf(l) && s.TAKE? && Take(l, now, s).1 == Placed
    ensures Wf(Take(l, now, s).0)
  {
    TakeOrder(l, now, s);
    ZRemRising(l.line, s.ticket, 1, l.counter);
    ZAppend(ZRem(l.line, s.ticket), Entry(l.counter + 1, s.ticket), 1, l.counter);
    SurvivingNoDuplicates(Tickets(l.line), {s.ticket});
    var rest := Surviving(Tickets(l.line), {s.ticket});
    NoDuplicatesAppend(rest, s.ticket);
  }

  lemma RemoveKeepsWf(l: Line, now: int, ticket: string, onlyIfExpired: bool)
    requires Wf(l)
    ensures Wf(Remove(l, now, ticket, onlyIfExpired).0)
  {
    ZRemIs(l.line, ticket);
    ZRemRising(l.line, ticket, 1, l.counter);
    SurvivingNoDuplicates(Tickets(l.line), {ticket});
  }

  /** Every script keeps a line well formed, through the counter's deletion and restart. */
  lemma ScriptsKeepWf(l: Line, now: int, s: Script)
    requires Wf(l)
    ensures Wf(Exec(l, now, s).0)
  {
    match s
    case TAKE(_, _, _, _, _) => if Exec(l, now, s).1 == Placed { TakeKeepsWf(l, now, s); }
    case REMOVE(ticket, onlyIfExpired) => RemoveKeepsWf(l, now, ticket, onlyIfExpired);
    case _ =>
  }

  /** A line's first ticket, or none. */
  function Head(l: Line): Option<string> {
    if |l.line| > 0 then Some(l.line[0].ticket) else None
  }

  /** The line is not emptied and another ticket becomes its head. */
  predicate PassesOn(l: Line, l': Line) {
    Head(l).Some? && Head(l').Some? && Head(l) != Head(l')
  }

  /** The job a script answers for its caller to wake. */
  function Signal(r: Reply): Option<string> {
    if r.Dropped? then r.next else None
  }

  lemma TakeKeepsHead(l: Line, now: int, s: Script)
    requires Wf(l) && s.TAKE? && !InLine(l, s.ticket) && Take(l, now, s).1 == Placed
    ensures l.line != [] ==> Head(Take(l, now, s).0) == Head(l)
  {
    TakeOrder(l, now, s);
    ZRemNone(l.line, s.ticket);
  }

  /**
   Exact hand-over. A script leaves another ticket at the head of a line it
   does not empty exactly when it answers a job to wake, and that job is the
   one recorded on the new head. A take needs a ticket not already in the line.
   */
  lemma ExactHandOver(l: Line, now: int, s: Script)
    requires Wf(l)
    requires s.TAKE? ==> !InLine(l, s.ticket)
    ensures PassesOn(l, Exec(l, now, s).0) <==> Signal(Exec(l, now, s).1).Some?
    ensures Signal(Exec(l, now, s).1).Some? ==>
      var l' := Exec(l, now, s).0;
      l'.line[0].ticket in l'.job && Signal(Exec(l, now, s).1).value == l'.job[l'.line[0].ticket]
  {
    match s
    case TAKE(_, _, _, _, _) => if Exec(l, now, s).1 == Placed { TakeKeepsHead(l, now, s); }
    case REMOVE(ticket, onlyIfExpired) =>
      if Exec(l, now, s).1.Dropped? {
        RemovedHead(l, now, ticket, onlyIfExpired);
        RemoveKeepsWf(l, now, ticket, onlyIfExpired);
        var l' := Exec(l, now, s).0;
        if l'.line != [] {
          assert Tickets(l'.line)[0] == l'.line[0].ticket;
          assert Tickets(l.line)[0] == l.line[0].ticket;
          assert |l.line| > 1 ==> Tickets(l.line)[1] == l.line[1].ticket;
        }
      }
    case _ =>
  }

  /** Removing the first place promotes the second; removing another leaves the first. */
  lemma RemovedHead(l: Line, now: int, ticket: string, onlyIfExpired: bool)
    requires Wf(l) && Remove(l, now, ticket, onlyIfExpired).1.Dropped?
    ensures var l' := Remove(l, now, ticket, onlyIfExpired).0;
      && |l.line| > 0
      && (l.line[0].ticket != ticket ==> |l'.line| > 0 && l'.line[0] == l.line[0])
      && (l.line[0].ticket == ticket ==> l'.line == l.line[1..])
  {
    var z := l.line;
    if z[0].ticket == ticket {
      assert Tickets(z)[1..] == Tickets(z[1..]);
      ZRemNone(z[1..], ticket);
    }
  }

  lemma {:induction false} ZRemNone(z: seq<Entry>, ticket: string)
    requires ticket !in Members(Tickets(z))
    ensures ZRem(z, ticket) == z
  {
    if z != [] {
      assert Tickets(z)[1..] == Tickets(z[1..]);
      ZRemNone(z[1..], ticket);
    }
  }

  lemma {:induction false} MembersAppend(a: seq<string>, b: seq<string>)
    ensures Members(a + b) == Members(a) + Members(b)
  {
    if a == [] {
      assert a + b == b;
    } else {
      MembersAppend(a[1..], b);
      assert (a + b)[1..] == a[1..] + b;
    }
  }

  /** How many tickets stand before `t`. */
  function IndexOf(ts: seq<string>, t: string): nat {
    if ts == [] || ts[0] == t then 0 else 1 + IndexOf(ts[1..], t)
  }

  lemma {:induction false} IndexOfSurviving(ts: seq<string>, gone: set<string>, t: string)
    requires t in Members(Surviving(ts, gone))
    ensures IndexOf(Surviving(ts, gone), t) <= IndexOf(ts, t)
  {
    if ts[0] in gone {
      IndexOfSurviving(ts[1..], gone, t);
    } else if ts[0] != t {
      assert ([ts[0]] + Surviving(ts[1..], gone))[1..] == Surviving(ts[1..], gone);
      IndexOfSurviving(ts[1..], gone, t);
    }
  }

  lemma {:induction false} IndexOfAppend(ts: seq<string>, t: string, u: string)
    requires t in Members(ts)
    ensures IndexOf(ts + [u], t) == IndexOf(ts, t)
  {
    if ts[0] != t {
      assert (ts + [u])[1..] == ts[1..] + [u];
      IndexOfAppend(ts[1..], t, u);
    }
  }

  lemma StandsInHashes(l: Line, t: string)
    requires Wf(l) && InLine(l, t)
    ensures t in l.exp && t in l.req && t in l.job
  {
  }

  lemma TakeSeen(l: Line, now: int, s: Script, t: string)
    requires Wf(l) && s.TAKE? && s.ticket != t && !InLine(l, s.ticket) && InLine(Take(l, now, s).0, t)
    ensures InLine(l, t) && IndexOf(Tickets(Take(l, now, s).0.line), t) <= IndexOf(Tickets(l.line), t)
  {
    if Take(l, now, s).1 == Placed {
      TakeOrder(l, now, s);
      SurvivingAll(Tickets(l.line), {s.ticket});
      MembersAppend(Tickets(l.line), [s.ticket]);
      IndexOfAppend(Tickets(l.line), t, s.ticket);
    }
  }

  lemma RemoveSeen(l: Line, now: int, ticket: string, onlyIfExpired: bool, t: string)
    requires Wf(l) && InLine(Remove(l, now, ticket, onlyIfExpired).0, t)
    ensures InLine(l, t)
    ensures IndexOf(Tickets(Remove(l, now, ticket, onlyIfExpired).0.line), t) <= IndexOf(Tickets(l.line), t)
    ensures Remove(l, now, ticket, onlyIfExpired).1.Dropped? ==> t != ticket
  {
    if Remove(l, now, ticket, onlyIfExpired).1.Dropped? {
      ZRemIs(l.line, ticket);
      IndexOfSurviving(Tickets(l.line), {ticket}, t);
    }
  }

  /** What one script leaves in the hashes under a ticket it neither takes nor removes. */
  lemma HashesSeen(l: Line, now: int, s: Script, t: string)
    requires t in l.exp && t in l.req && t in l.job && t in Exec(l, now, s).0.exp
    requires s.TAKE? ==> s.ticket != t
    ensures var l' := Exec(l, now, s).0;
      && t in l'.req && t in l'.job && l'.req[t] == l.req[t] && l'.job[t] == l.job[t]
      && (l'.exp[t] == l.exp[t] || (s.RENEW? && s.ticket == t && l'.exp[t] == now + s.leaseMs))
  {
  }

  lemma OrderSeen(l: Line, now: int, s: Script, t: string)
    requires Wf(l) && InLine(Exec(l, now, s).0, t) && (s.TAKE? ==> s.ticket != t && !InLine(l, s.ticket))
    ensures InLine(l, t) && IndexOf(Tickets(Exec(l, now, s).0.line), t) <= IndexOf(Tickets(l.line), t)
  {
    match s
    case TAKE(_, _, _, _, _) => TakeSeen(l, now, s, t);
    case REMOVE(ticket, onlyIfExpired) => RemoveSeen(l, now, ticket, onlyIfExpired, t);
    case _ =>
  }

  /**
   One script as a place it neither takes nor removes sees it: the place stood
   before if it stands after, keeps its request and job, never moves back, and
   has its lease changed by its own renewal alone.
   */
  lemma ScriptPlace(l: Line, now: int, s: Script, t: string)
    requires Wf(l) && InLine(Exec(l, now, s).0, t) && (s.TAKE? ==> s.ticket != t && !InLine(l, s.ticket))
    ensures InLine(l, t) && IndexOf(Tickets(Exec(l, now, s).0.line), t) <= IndexOf(Tickets(l.line), t)
    ensures var l' := Exec(l, now, s).0;
      && t in l.exp && t in l'.exp && t in l.req && t in l'.req && t in l.job && t in l'.job
      && l'.req[t] == l.req[t] && l'.job[t] == l.job[t]
      && (l'.exp[t] == l.exp[t] || (s.RENEW? && s.ticket == t && l'.exp[t] == now + s.leaseMs))
  {
    OrderSeen(l, now, s, t);
    ScriptsKeepWf(l, now, s);
    StandsInHashes(l, t);
    StandsInHashes(Exec(l, now, s).0, t);
    HashesSeen(l, now, s, t);
  }
}
