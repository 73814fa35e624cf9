/**
 One key's lease backend, as one process runs it with nobody interfering: the
 scripts change the key's Redis values in place, and reconcile loops over the
 lapsed places, renewing or removing each. Interleavings with other processes
 are in LeaseProtocol.
 */
module LeaseBackend {
  import opened Wrappers
  import opened LeaseLine

  /** The places a reconcile that reads `jobs` finds lapsed at `now` and does not keep. */
  function Dead(l: Line, now: int, jobs: map<string, JobState>): set<string> {
    set t | t in l.exp && HasExpired(l, now, t) && !Returning(StateOf(jobs, Get(l.job, t, "")))
  }

  function LapsedAt(l: Line, now: int): set<string> {
    set t | t in l.exp && HasExpired(l, now, t)
  }

  /** Waking by a recorded job id; the empty id wakes nothing. */
  function Woken(jobs: map<string, JobState>, job: string): map<string, JobState> {
    if job == "" then jobs else Promoted(jobs, job)
  }

  function TicketsOf(lapsed: seq<Lapsed>): (ts: seq<string>)
    ensures |ts| == |lapsed|
    ensures forall i :: 0 <= i < |lapsed| ==> ts[i] == lapsed[i].ticket
  {
    seq(|lapsed|, i requires 0 <= i < |lapsed| => lapsed[i].ticket)
  }

  function Holding(l: Line, now: int): set<string> {
    set t | t in l.exp && !HasExpired(l, now, t)
  }

  lemma TicketsNext(x: Lapsed, rest: seq<Lapsed>)
    ensures TicketsOf([x] + rest) == [x.ticket] + TicketsOf(rest)
  {
  }

  /** The scan answers exactly the lapsed tickets, in line order. */
  lemma {:induction false} ScanIsExact(l: Line, now: int, z: seq<Entry>)
    requires Members(Tickets(z)) <= l.exp.Keys
    ensures TicketsOf(ExpiredOf(l, now, z)) == Surviving(Tickets(z), Holding(l, now))
  {
    if z != [] {
      assert Tickets(z)[0] == z[0].ticket && Tickets(z)[1..] == Tickets(z[1..]);
      ScanIsExact(l, now, z[1..]);
      if HasExpired(l, now, z[0].ticket) {
        TicketsNext(Lapsed(z[0].ticket, Get(l.job, z[0].ticket, "")), ExpiredOf(l, now, z[1..]));
      }
    }
  }

  lemma {:induction false} ScanNamesJobs(l: Line, now: int, z: seq<Entry>)
    ensures forall x :: x in ExpiredOf(l, now, z) ==> x.job == Get(l.job, x.ticket, "")
  {
    if z != [] {
      ScanNamesJobs(l, now, z[1..]);
    }
  }

  lemma ScanCovers(l: Line, now: int, jobs: map<string, JobState>)
    requires Wf(l)
    ensures var lapsed := ExpiredOf(l, now, l.line);
      && NoDuplicates(TicketsOf(lapsed))
      && Members(TicketsOf(lapsed)) == LapsedAt(l, now)
      && (forall x :: x in lapsed ==> x.job == Get(l.job, x.ticket, ""))
    ensures LapsedAt(l, now) * Dead(l, now, jobs) == Dead(l, now, jobs)
  {
    var holding := Holding(l, now);
    ScanIsExact(l, now, l.line);
    ScanNamesJobs(l, now, l.line);
    SurvivingNoDuplicates(Tickets(l.line), holding);
    assert l.exp.Keys - holding == LapsedAt(l, now);
  }

  /**
   The line after a reconcile has handled the lapsed places in `handled`, of
   which those in `gone` were dead: the survivors stand in their old order with
   their own request and job; a handled survivor holds a lease no older than
   the scan, every other keeps the lease it had.
   */
  ghost predicate Reconciled(l0: Line, l: Line, scan: int, leaseMs: int, handled: set<string>, gone: set<string>) {
    && Wf(l)
    && Tickets(l.line) == Surviving(Tickets(l0.line), gone)
    && l.req == l0.req - gone
    && l.job == l0.job - gone
    && l.exp.Keys <= l0.exp.Keys
    && (forall t :: t in l.exp && t in handled ==> l.exp[t] >= scan + leaseMs)
    && (forall t :: t in l.exp && t !in handled ==> l.exp[t] == l0.exp[t])
  }

  /** What the loop finds at its `i`-th lapsed place, and how handling it extends what was handled. */
  lemma NextLapsed(l0: Line, scan: int, jobs0: map<string, JobState>, lapsed: seq<Lapsed>, i: nat)
    requires Wf(l0) && lapsed == ExpiredOf(l0, scan, l0.line) && i < |lapsed|
    ensures var ts, t, dead := TicketsOf(lapsed), lapsed[i].ticket, Dead(l0, scan, jobs0);
      && t in LapsedAt(l0, scan) && t !in Members(ts[..i]) && lapsed[i].job == Get(l0.job, t, "")
      && Members(ts[..i + 1]) == Members(ts[..i]) + {t}
      && Members(ts[..i + 1]) * dead == Members(ts[..i]) * dead + {t} * dead
  {
    ScanCovers(l0, scan, jobs0);
    FirstAt(TicketsOf(lapsed), i);
    assert lapsed[i] in lapsed;
  }

  /** The jobs after waking the head the line got by a removal, if it got one. */
  function JobsAfter(l0: Line, l: Line, jobs: map<string, JobState>): map<string, JobState> {
    if PassesOn(l0, l) then Woken(jobs, Get(l.job, Head(l).value, "")) else jobs
  }

  lemma ReconcileBegins(l: Line, scan: int, leaseMs: int, jobs: map<string, JobState>)
    requires Wf(l)
    ensures Reconciled(l, l, scan, leaseMs, {}, {}) && JobsAfter(l, l, jobs) == jobs
  {
    SurvivingAll(Tickets(l.line), {});
  }

  /** A place whose job is returning is not dead: a wake moves a job from one returning state to another. */
  lemma ReturningIsNotDead(l0: Line, l: Line, scan: int, jobs0: map<string, JobState>, t: string)
    requires Returning(StateOf(JobsAfter(l0, l, jobs0), Get(l0.job, t, "")))
    ensures t !in Dead(l0, scan, jobs0)
  {
  }

  lemma RenewKeepsRest(l0: Line, l: Line, scan: int, now: int, leaseMs: int, handled: set<string>, gone: set<string>,
                       t: string)
    requires Reconciled(l0, l, scan, leaseMs, handled, gone) && t in l0.exp && scan <= now
    ensures Reconciled(l0, Renew(l, now, t, leaseMs).0, scan, leaseMs, handled + {t}, gone)
  {
  }

  lemma RenewWakesNone(l0: Line, l: Line, now: int, leaseMs: int, jobs0: map<string, JobState>, t: string)
    ensures JobsAfter(l0, Renew(l, now, t, leaseMs).0, jobs0) == JobsAfter(l0, l, jobs0)
  {
  }

  /** One kept place: its lease is fresh, and the rest of the line is as it was. */
  lemma KeepStep(l0: Line, l: Line, scan: int, now: int, leaseMs: int, handled: set<string>, gone: set<string>,
                 jobs0: map<string, JobState>, t: string)
    requires Wf(l0) && Reconciled(l0, l, scan, leaseMs, handled, gone)
    requires t !in gone && t in l0.exp && scan <= now
    requires Returning(StateOf(JobsAfter(l0, l, jobs0), Get(l0.job, t, "")))
    ensures Reconciled(l0, Renew(l, now, t, leaseMs).0, scan, leaseMs, handled + {t},
                       gone + ({t} * Dead(l0, scan, jobs0)))
    ensures JobsAfter(l0, Renew(l, now, t, leaseMs).0, jobs0) == JobsAfter(l0, l, jobs0)
  {
    ReturningIsNotDead(l0, l, scan, jobs0, t);
    RenewKeepsRest(l0, l, scan, now, leaseMs, handled, gone, t);
    RenewWakesNone(l0, l, now, leaseMs, jobs0, t);
    assert gone + ({t} * Dead(l0, scan, jobs0)) == gone;
  }

  lemma GoneIsDead(l0: Line, l: Line, scan: int, jobs0: map<string, JobState>, t: string)
    requires t in LapsedAt(l0, scan) && !Returning(StateOf(JobsAfter(l0, l, jobs0), Get(l0.job, t, "")))
    ensures t in Dead(l0, scan, jobs0)
  {
  }

  /** One dead place: the script removes it, because nothing renewed it since the scan. */
  lemma DropStep(l0: Line, l: Line, scan: int, now: int, leaseMs: int, handled: set<string>, gone: set<string>,
                 jobs0: map<string, JobState>, t: string)
    requires Wf(l0) && Reconciled(l0, l, scan, leaseMs, handled, gone)
    requires t !in gone && t !in handled && t in LapsedAt(l0, scan) && scan <= now
    requires !Returning(StateOf(JobsAfter(l0, l, jobs0), Get(l0.job, t, "")))
    ensures var (l', r) := Remove(l, now, t, true);
      && Reconciled(l0, l', scan, leaseMs, handled + {t}, gone + ({t} * Dead(l0, scan, jobs0)))
      && JobsAfter(l0, l', jobs0)
          == (if Signal(r).Some? then Woken(JobsAfter(l0, l, jobs0), Signal(r).value) else JobsAfter(l0, l, jobs0))
  {
    DropKeepsRest(l0, l, scan, now, leaseMs, handled, gone, t);
    DropWakes(l0, l, now, t, gone, jobs0);
    GoneIsDead(l0, l, scan, jobs0, t);
    assert gone + ({t} * Dead(l0, scan, jobs0)) == gone + {t};
  }

  lemma DropTickets(l0: Line, l: Line, now: int, gone: set<string>, t: string)
    requires Wf(l0) && Wf(l) && t in l.exp && HasExpired(l, now, t)
    requires Tickets(l.line) == Surviving(Tickets(l0.line), gone)
    ensures Tickets(Remove(l, now, t, true).0.line) == Surviving(Tickets(l0.line), gone + {t})
  {
    ZRemIs(l.line, t);
    SurvivingTwice(Tickets(l0.line), gone, {t});
  }

  lemma RemovedFields(l: Line, now: int, t: string, onlyIfExpired: bool)
    requires Wf(l) && t in l.exp && (onlyIfExpired ==> HasExpired(l, now, t))
    ensures var (l', r) := Remove(l, now, t, onlyIfExpired);
      r.Dropped? && Wf(l') && l'.exp == l.exp - {t} && l'.req == l.req - {t} && l'.job == l.job - {t}
  {
    RemoveKeepsWf(l, now, t, onlyIfExpired);
    ZRemIs(l.line, t);
    var l' := Remove(l, now, t, onlyIfExpired).0;
    if l' == EMPTY_LINE {
      assert l.exp.Keys <= {t} && l.req.Keys <= {t} && l.job.Keys <= {t};
    }
  }

  /** What is left once `t` is struck off is reconciled without it. */
  lemma WithoutIsReconciled(l0: Line, l: Line, l': Line, scan: int, leaseMs: int, handled: set<string>,
                            gone: set<string>, t: string)
    requires Reconciled(l0, l, scan, leaseMs, handled, gone)
    requires Wf(l') && Tickets(l'.line) == Surviving(Tickets(l0.line), gone + {t})
    requires l'.exp == l.exp - {t} && l'.req == l.req - {t} && l'.job == l.job - {t}
    ensures Reconciled(l0, l', scan, leaseMs, handled + {t}, gone + {t})
  {
    assert l'.req == l0.req - (gone + {t}) && l'.job == l0.job - (gone + {t});
  }

  lemma DropKeepsRest(l0: Line, l: Line, scan: int, now: int, leaseMs: int, handled: set<string>, gone: set<string>,
                      t: string)
    requires Wf(l0) && Reconciled(l0, l, scan, leaseMs, handled, gone)
    requires t !in gone && t !in handled && t in LapsedAt(l0, scan) && scan <= now
    ensures Reconciled(l0, Remove(l, now, t, true).0, scan, leaseMs, handled + {t}, gone + {t})
    ensures Remove(l, now, t, true).1.Dropped?
  {
    assert t in l0.job && l.job.Keys == l.exp.Keys;
    assert l.exp[t] == l0.exp[t];
    DropTickets(l0, l, now, gone, t);
    RemovedFields(l, now, t, true);
    WithoutIsReconciled(l0, l, Remove(l, now, t, true).0, scan, leaseMs, handled, gone, t);
  }

  /**
   Removing a dead place leaves the woken job that of the head: a dead head's
   job was never delayed, so passing it by woke nothing.
   */
  lemma DropWakes(l0: Line, l: Line, now: int, t: string, gone: set<string>, jobs0: map<string, JobState>)
    requires Wf(l0) && Wf(l) && Tickets(l.line) == Surviving(Tickets(l0.line), gone)
    requires l.job == l0.job - gone && t in l.job
    requires !Returning(StateOf(JobsAfter(l0, l, jobs0), l.job[t]))
    ensures var (l', r) := Remove(l, now, t, true);
      r.Dropped? ==>
        JobsAfter(l0, l', jobs0)
          == (if Signal(r).Some? then Woken(JobsAfter(l0, l, jobs0), Signal(r).value) else JobsAfter(l0, l, jobs0))
  {
    var (l', r) := Remove(l, now, t, true);
    if r.Dropped? {
      RemovedHead(l, now, t, true);
      ExactHandOver(l, now, REMOVE(t, true));
      if Head(l) == Some(t) {
        DeadHeadWokeNone(l0, l, t, jobs0);
        NextHeadIsNew(l0, l, now, t, gone);
      }
    }
  }

  /** The job of a dead head was not delayed, so the wake it may have had did nothing. */
  lemma DeadHeadWokeNone(l0: Line, l: Line, t: string, jobs0: map<string, JobState>)
    requires Head(l) == Some(t) && t in l.job && !Returning(StateOf(JobsAfter(l0, l, jobs0), l.job[t]))
    ensures JobsAfter(l0, l, jobs0) == jobs0
  {
  }

  /** Behind a removed head stands another ticket than the one the line began with. */
  lemma NextHeadIsNew(l0: Line, l: Line, now: int, t: string, gone: set<string>)
    requires Wf(l0) && Wf(l) && Tickets(l.line) == Surviving(Tickets(l0.line), gone)
    requires Head(l) == Some(t) && Remove(l, now, t, true).1.Dropped?
    ensures Head(l0).Some? && Head(Remove(l, now, t, true).0) != Head(l0)
  {
    var ts, l' := Tickets(l0.line), Remove(l, now, t, true).0;
    assert Surviving(ts, gone)[0] == t;
    HeadSurvives(ts, gone);
    ZRemIs(l.line, t);
    SurvivingTwice(ts, gone, {t});
    HeadSurvives(ts, gone + {t});
    assert l'.line != [] ==> Tickets(l'.line)[0] == l'.line[0].ticket;
  }

  /** A first ticket that is not struck out stays first; one struck out is gone. */
  lemma HeadSurvives(ts: seq<string>, gone: set<string>)
    requires NoDuplicates(ts)
    ensures ts != [] && ts[0] !in gone ==> Surviving(ts, gone) != [] && Surviving(ts, gone)[0] == ts[0]
    ensures ts != [] && ts[0] in gone && Surviving(ts, gone) != [] ==> Surviving(ts, gone)[0] != ts[0]
  {
    if ts != [] && ts[0] in gone && Surviving(ts, gone) != [] {
      assert Surviving(ts, gone)[0] in Members(Surviving(ts, gone));
    }
  }

  /** Giving a place back strikes it off and touches no other. */
  lemma GivenBack(l: Line, now: int, t: string)
    requires Wf(l)
    ensures var l' := Remove(l, now, t, false).0;
      && Wf(l') && Tickets(l'.line) == Surviving(Tickets(l.line), {t})
      && l'.exp == l.exp - {t} && l'.req == l.req - {t} && l'.job == l.job - {t}
  {
    ZRemIs(l.line, t);
    if t in l.exp {
      RemovedFields(l, now, t, false);
    } else {
      SurvivingAll(Tickets(l.line), {t});
    }
  }

  lemma GivingBackWakes(l: Line, now: int, t: string, jobs: map<string, JobState>)
    requires Wf(l)
    ensures var (l', r) := Remove(l, now, t, false);
      JobsAfter(l, l', jobs) == if Signal(r).Some? then Woken(jobs, Signal(r).value) else jobs
  {
    ExactHandOver(l, now, REMOVE(t, false));
  }

  /** A reconcile of `l0` begun at `scan` among `jobs0` has come to `l` and `jobs`. */
  ghost predicate AfterReconcile(l0: Line, scan: int, jobs0: map<string, JobState>, leaseMs: int, l: Line,
                                 jobs: map<string, JobState>) {
    && Reconciled(l0, l, scan, leaseMs, LapsedAt(l0, scan), Dead(l0, scan, jobs0))
    && jobs == JobsAfter(l0, l, jobs0)
  }

  /** A place is dead when its lease had run out and its job, if it has one, is in none of the states that come back. */
  lemma DeadExactly(l0: Line, scan: int, jobs0: map<string, JobState>, t: string)
    requires t in l0.exp && t in l0.job
    ensures var j := l0.job[t];
      t in Dead(l0, scan, jobs0)
      <==> (l0.exp[t] < scan && (j == "" || j !in jobs0 || jobs0[j] in {Active, Completed, Failed, Unknown}))
  {
    var j := l0.job[t];
    assert Get(l0.job, t, "") == j;
    if j != "" && j in jobs0 {
      assert jobs0[j].Waiting? || jobs0[j].Delayed? || jobs0[j].Prioritized? || jobs0[j].WaitingChildren?
          || jobs0[j].Active? || jobs0[j].Completed? || jobs0[j].Failed? || jobs0[j].Unknown?;
      assert StateOf(jobs0, j) == jobs0[j];
    }
  }

  /**
   What a reconcile keeps, place by place: one whose lease had not run out at the
   scan, or whose job was waiting, delayed, prioritized or waiting for children.
   */
  lemma KeptExactly(l0: Line, scan: int, jobs0: map<string, JobState>, leaseMs: int, l: Line,
                    jobs: map<string, JobState>, t: string)
    requires Wf(l0) && AfterReconcile(l0, scan, jobs0, leaseMs, l, jobs) && t in l0.exp
    ensures t in l0.job
    ensures var j := l0.job[t];
      t !in l.exp
      <==> (l0.exp[t] < scan && (j == "" || j !in jobs0 || jobs0[j] in {Active, Completed, Failed, Unknown}))
    ensures var j := l0.job[t];
      t in l.exp
      <==> (l0.exp[t] >= scan
            || (j != "" && j in jobs0 && jobs0[j] in {Waiting, Delayed, Prioritized, WaitingChildren}))
  {
    DeadExactly(l0, scan, jobs0, t);
    SurvivingMembers(Tickets(l0.line), Dead(l0, scan, jobs0), t);
    assert t in l.exp <==> t in Members(Tickets(l.line));
    assert t in l0.exp <==> t in Members(Tickets(l0.line));
  }

  /** A kept place has its request and job, a lapsed one a fresh lease and any other the lease it had. */
  lemma KeptKeeps(l0: Line, scan: int, jobs0: map<string, JobState>, leaseMs: int, l: Line,
                  jobs: map<string, JobState>, t: string)
    requires Wf(l0) && AfterReconcile(l0, scan, jobs0, leaseMs, l, jobs) && t in l0.exp && t in l.exp
    ensures t in l0.req && t in l0.job && t in l.req && t in l.job
    ensures l.req[t] == l0.req[t] && l.job[t] == l0.job[t]
    ensures if l0.exp[t] < scan then l.exp[t] >= scan + leaseMs else l.exp[t] == l0.exp[t]
  {
  }

  lemma {:induction false} SurvivingMembers(ts: seq<string>, gone: set<string>, t: string)
    ensures t in Members(Surviving(ts, gone)) <==> t in Members(ts) && t !in gone
  {
    if ts != [] {
      SurvivingMembers(ts[1..], gone, t);
    }
  }

  /** The one job a change from `l0` to `l` wakes: that of a head the line did not have before. */
  ghost predicate HandsTo(l0: Line, l: Line, j: string) {
    && l0.line != [] && l.line != [] && l0.line[0].ticket != l.line[0].ticket
    && l.line[0].ticket in l.job && l.job[l.line[0].ticket] == j
  }

  /** What became of each job: a delayed one the line is handed to waits now, every other is as it was. */
  lemma WokenExactly(l0: Line, l: Line, jobs0: map<string, JobState>, j: string)
    requires Wf(l0) && Wf(l)
    ensures var jobs := JobsAfter(l0, l, jobs0);
      && (j in jobs <==> j in jobs0)
      && (j in jobs0 && j != "" ==>
            jobs[j] == if HandsTo(l0, l, j) && jobs0[j] == Delayed then Waiting else jobs0[j])
  {
    if l.line != [] {
      assert Tickets(l.line)[0] == l.line[0].ticket;
    }
  }

  predicate Recorded(l: Line, ticket: string, lease: int, request: string, job: string) {
    && ticket in l.exp && l.exp[ticket] == lease
    && ticket in l.req && l.req[ticket] == request
    && ticket in l.job && l.job[ticket] == job
  }

  /** A take of a fresh ticket: held with nothing changed, or placed last with the rest untouched. */
  lemma TakeOnto(l: Line, now: int, ticket: string, request: string, ifEmpty: bool, leaseMs: int, job: string)
    requires Wf(l) && ticket !in l.exp
    ensures var (l', r) := Take(l, now, TAKE(ticket, request, ifEmpty, leaseMs, job));
      && Wf(l')
      && (if ifEmpty && l.line != [] then r == Held(Get(l.req, l.line[0].ticket, "")) && l' == l
          else r == Placed && Tickets(l'.line) == Tickets(l.line) + [ticket]
               && Recorded(l', ticket, now + leaseMs, request, job)
               && l'.exp - {ticket} == l.exp && l'.req - {ticket} == l.req && l'.job - {ticket} == l.job)
  {
    var s := TAKE(ticket, request, ifEmpty, leaseMs, job);
    ScriptOrder(l, now, s);
    ScriptsKeepWf(l, now, s);
    SurvivingAll(Tickets(l.line), {ticket});
  }

  class RedisLease {
    var line: seq<Entry>
    var exp: map<string, int>
    var req: map<string, string>
    var job: map<string, string>
    var counter: nat
    /** Redis' clock, in milliseconds. */
    var now: int
    /** The states of the queue's jobs. */
    var jobs: map<string, JobState>
    const leaseMs: int

    constructor (leaseMs: int, now: int, jobs: map<string, JobState>)
      ensures Keys() == EMPTY_LINE && Wf(Keys())
      ensures this.leaseMs == leaseMs && this.now == now && this.jobs == jobs
    {
      this.leaseMs, this.now, this.jobs := leaseMs, now, jobs;
      line, exp, req, job, counter := [], map[], map[], map[], 0;
    }

    function Keys(): Line
      reads this
    {
      Line(line, exp, req, job, counter)
    }

    /** Time passes between two calls to Redis. */
    method Elapse()
      modifies this`now
      ensures now >= old(now)
    {
      var ms: int := *;
      if ms > 0 {
        now := now + ms;
      }
    }

    method TakeScript(ticket: string, requestId: string, ifEmpty: bool, jobId: string) returns (r: Reply)
      modifies `line, `exp, `req, `job, `counter
      ensures (Keys(), r) == Take(old(Keys()), now, TAKE(ticket, requestId, ifEmpty, leaseMs, jobId))
      ensures r == Placed <==> !ifEmpty || old(line) == []
      ensures r == Placed ==>
        && exp == old(exp)[ticket := now + leaseMs] && req == old(req)[ticket := requestId]
        && job == old(job)[ticket := jobId] && counter == old(counter) + 1
    {
      if ifEmpty && |line| > 0 {
        var head := line[0].ticket;
        return Held(Get(req, head, ""));
      }
      counter := counter + 1;
      line := ZAdd(line, counter, ticket);
      exp := exp[ticket := now + leaseMs];
      req := req[ticket := requestId];
      job := job[ticket := jobId];
      r := Placed;
    }

    method RenewScript(ticket: string) returns (r: Reply)
      modifies `exp
      ensures (Keys(), r) == Renew(old(Keys()), now, ticket, leaseMs)
      ensures r == Renewed(ticket in Members(Tickets(line)))
      ensures exp == if ticket in Members(Tickets(line)) then old(exp)[ticket := now + leaseMs] else old(exp)
    {
      if !InLine(Keys(), ticket) {
        return Renewed(false);
      }
      exp := exp[ticket := now + leaseMs];
      r := Renewed(true);
    }

    method RemoveScript(ticket: string, onlyIfExpired: bool) returns (r: Reply)
      modifies `line, `exp, `req, `job, `counter
      ensures (Keys(), r) == Remove(old(Keys()), now, ticket, onlyIfExpired)
      ensures r.Dropped? ==> ticket in Members(old(Tickets(line)))
      ensures r.Dropped? && onlyIfExpired && ticket in old(exp) ==> old(exp)[ticket] < now
      ensures r == Kept ==> Keys() == old(Keys())
    {
      if !InLine(Keys(), ticket) {
        return Kept;
      }
      if onlyIfExpired && Get(exp, ticket, 0) >= now {
        return Kept;
      }
      var wasFirst := |line| > 0 && line[0].ticket == ticket;
      line := ZRem(line, ticket);
      exp := exp - {ticket};
      req := req - {ticket};
      job := job - {ticket};
      if |line| == 0 {
        line, exp, req, job, counter := [], map[], map[], map[], 0;
        return Dropped(None);
      }
      if !wasFirst {
        return Dropped(None);
      }
      var head := line[0].ticket;
      r := Dropped(if head in job then Some(job[head]) else None);
    }

    method ExpiredScript() returns (out: seq<Lapsed>)
      ensures out == ExpiredOf(Keys(), now, line)
    {
      out := [];
      var i := 0;
      while i < |line|
        invariant 0 <= i <= |line|
        invariant out + ExpiredOf(Keys(), now, line[i..]) == ExpiredOf(Keys(), now, line)
      {
        var ticket := line[i].ticket;
        assert line[i..][1..] == line[i + 1..];
        if Get(exp, ticket, 0) < now {
          out := out + [Lapsed(ticket, Get(job, ticket, ""))];
        }
        i := i + 1;
      }
    }

    /** A run that waits out a delay is made ready at once. */
    method Wake(jobId: string)
      modifies `jobs
      ensures jobs == Promoted(old(jobs), jobId)
      ensures jobId in old(jobs) && old(jobs)[jobId] == Delayed ==> jobs == old(jobs)[jobId := Waiting]
      ensures !(jobId in old(jobs) && old(jobs)[jobId] == Delayed) ==> jobs == old(jobs)
    {
      if jobId in jobs && jobs[jobId] == Delayed {
        jobs := jobs[jobId := Waiting];
      }
    }

    method RemovePlace(ticket: string, onlyIfExpired: bool)
      modifies `line, `exp, `req, `job, `counter, `jobs
      ensures Keys() == Remove(old(Keys()), now, ticket, onlyIfExpired).0
      ensures var s := Signal(Remove(old(Keys()), now, ticket, onlyIfExpired).1);
        jobs == if s.Some? then Woken(old(jobs), s.value) else old(jobs)
    {
      var r := RemoveScript(ticket, onlyIfExpired);
      if Signal(r).Some? && Signal(r).value != "" {
        Wake(Signal(r).value);
      }
    }

    /** Keep or drop one lapsed place, by the state its job has when it is read. */
    method Settle(x: Lapsed, ghost l0: Line, ghost scan: int, ghost jobs0: map<string, JobState>,
                  ghost handled: set<string>, ghost gone: set<string>)
      requires Wf(l0) && scan <= now && Reconciled(l0, Keys(), scan, leaseMs, handled, gone)
      requires x.ticket in LapsedAt(l0, scan) && x.ticket !in handled && x.ticket !in gone
      requires x.job == Get(l0.job, x.ticket, "")
      requires jobs == JobsAfter(l0, Keys(), jobs0)
      modifies this
      ensures now >= old(now)
      ensures Reconciled(l0, Keys(), scan, leaseMs, handled + {x.ticket},
        gone + ({x.ticket} * Dead(l0, scan, jobs0)))
      ensures jobs == JobsAfter(l0, Keys(), jobs0)
    {
      ghost var l := Keys();
      Elapse();
      var state := StateOf(jobs, x.job);
      Elapse();
      if Returning(state) {
        KeepStep(l0, l, scan, now, leaseMs, handled, gone, jobs0, x.ticket);
        var _ := RenewScript(x.ticket);
      } else {
        DropStep(l0, l, scan, now, leaseMs, handled, gone, jobs0, x.ticket);
        RemovePlace(x.ticket, true);
      }
    }

    /**
     Reconcile with nobody interfering is a filter: it leaves exactly the places
     that had not lapsed at the scan or whose job is returning, in their old
     order, and every kept place that had lapsed holds a fresh lease. It wakes
     the job at the head it gave the line, and no other.
     */
    method Reconcile()
      requires Wf(Keys())
      modifies this
      ensures now >= old(now)
      ensures AfterReconcile(old(Keys()), old(now), old(jobs), leaseMs, Keys(), jobs)
      ensures forall t :: t in old(exp) ==>
        && t in old(job)
        && (t !in exp
            <==> (old(exp)[t] < old(now)
                  && (old(job)[t] == "" || old(job)[t] !in old(jobs)
                      || old(jobs)[old(job)[t]] in {Active, Completed, Failed, Unknown})))
    {
      ghost var l0, scan, jobs0 := Keys(), now, jobs;
      var expired := ExpiredScript();
      ghost var ts, dead := TicketsOf(expired), Dead(l0, scan, jobs0);
      ReconcileBegins(l0, scan, leaseMs, jobs0);
      assert {} * dead == {};
      var i := 0;
      while i < |expired|
        invariant 0 <= i <= |expired| && scan <= now
        invariant Reconciled(l0, Keys(), scan, leaseMs, Members(ts[..i]), Members(ts[..i]) * dead)
        invariant jobs == JobsAfter(l0, Keys(), jobs0)
      {
        NextLapsed(l0, scan, jobs0, expired, i);
        Settle(expired[i], l0, scan, jobs0, Members(ts[..i]), Members(ts[..i]) * dead);
        i := i + 1;
      }
      ScanCovers(l0, scan, jobs0);
      assert ts[..i] == ts;
      forall t | t in l0.exp
        ensures t in l0.job
          && (t !in exp
              <==> (l0.exp[t] < scan
                    && (l0.job[t] == "" || l0.job[t] !in jobs0
                        || jobs0[l0.job[t]] in {Active, Completed, Failed, Unknown}))) {
        KeptExactly(l0, scan, jobs0, leaseMs, Keys(), jobs, t);
      }
    }

    /**
     Join the line a reconcile leaves. With `ifEmpty` a survivor's request is
     answered and nothing is taken; otherwise the place stands behind every
     survivor, under its own lease, request and job.
     */
    method TakePlace(ticket: string, requestId: string, ifEmpty: bool, jobId: Option<string>)
      returns (r: Reply, ghost between: Line)
      requires Wf(Keys()) && ticket !in exp
      modifies this
      ensures Wf(Keys())
      ensures AfterReconcile(old(Keys()), old(now), old(jobs), leaseMs, between, jobs)
      ensures if r == Placed then
                exp - {ticket} == between.exp && req - {ticket} == between.req && job - {ticket} == between.job
              else Keys() == between
      ensures if ifEmpty && between.line != [] then r == Held(Get(between.req, between.line[0].ticket, ""))
              else r == Placed && Tickets(line) == Tickets(between.line) + [ticket]
      ensures r == Placed ==>
        Recorded(Keys(), ticket, now + leaseMs, requestId, if jobId.Some? then jobId.value else LeaseJobId(ticket))
    {
      Reconcile();
      between := Keys();
      Elapse();
      var id := if jobId.Some? then jobId.value else LeaseJobId(ticket);
      TakeOnto(between, now, ticket, requestId, ifEmpty, leaseMs, id);
      r := TakeScript(ticket, requestId, ifEmpty, id);
    }

    /** A place's turn, once the dead places in front of it are gone. */
    method IsMyTurn(ticket: string) returns (answer: TurnAnswer)
      requires Wf(Keys())
      modifies this
      ensures Wf(Keys())
      ensures var kept := Surviving(Tickets(old(line)), Dead(old(Keys()), old(now), old(jobs)));
        && Tickets(line) == kept
        && answer == (if kept != [] && kept[0] == ticket then First else if ticket in kept then Behind else Missing)
      ensures AfterReconcile(old(Keys()), old(now), old(jobs), leaseMs, Keys(), jobs)
    {
      Reconcile();
      Elapse();
      MembersIs(Tickets(line), ticket);
      answer := Turn(Keys(), ticket);
    }

    /** A holder keeps its place: its lease runs from now, or it learns that the place is gone. */
    method RenewPlace(ticket: string) returns (kept: bool)
      requires Wf(Keys())
      modifies `exp
      ensures Wf(Keys())
      ensures kept <==> ticket in old(exp)
      ensures exp == if kept then old(exp)[ticket := now + leaseMs] else old(exp)
    {
      var r := RenewScript(ticket);
      kept := r == Renewed(true);
    }

    method GiveBack(ticket: string)
      requires Wf(Keys())
      modifies this
      ensures Wf(Keys())
      ensures Tickets(line) == Surviving(old(Tickets(line)), {ticket})
      ensures exp == old(exp) - {ticket} && req == old(req) - {ticket} && job == old(job) - {ticket}
      ensures jobs == JobsAfter(old(Keys()), Keys(), old(jobs))
      ensures forall j :: j in old(jobs) && j != "" ==>
        && j in jobs
        && jobs[j] == if HandsTo(old(Keys()), Keys(), j) && old(jobs)[j] == Delayed then Waiting else old(jobs)[j]
    {
      ghost var l0, jobs0 := Keys(), jobs;
      GivenBack(Keys(), now, ticket);
      GivingBackWakes(Keys(), now, ticket, jobs);
      RemovePlace(ticket, false);
      forall j | j in jobs0 && j != ""
        ensures j in jobs && jobs[j] == if HandsTo(l0, Keys(), j) && jobs0[j] == Delayed then Waiting else jobs0[j] {
        WokenExactly(l0, Keys(), jobs0, j);
      }
    }
  }
}
