/**
 The lease backend as every process of a deployment runs it at once.

 Each Lua script is one atomic step on one key's line. `take`, `isMyTurn`,
 `giveBack` and `renew` are small programs over those steps, run by any number
 of processes in any interleaving, with the clock and the job states moving
 between any two steps, and with processes stopping anywhere.
 */
module LeaseProtocol {
  import opened Wrappers
  import opened LeaseLine

  // ----- One process -----

  /** A call that reconciles its key before its own script. */
  datatype Call =
    | TakeCall(key: string, request: string, ifEmpty: bool, jobId: Option<string>)
    | TurnCall(key: string, ticket: string)

  /** Where a process stands: the step it is about to take. */
  datatype PC =
    | Idle
    | Scan(call: Call)
    | ReadState(call: Call, todo: seq<Lapsed>)
    | Keep(call: Call, todo: seq<Lapsed>)
    | Drop(call: Call, todo: seq<Lapsed>)
    | Ready(call: Call)
    | GiveBack(key: string, ticket: string)
    | RenewPlace(key: string, ticket: string)
    | IsDelayed(job: string, next: PC)
    | Promote(job: string, next: PC)

  /** The head of reconcile's loop. A place with no job is dropped without a read. */
  function Loop(call: Call, todo: seq<Lapsed>): PC {
    if todo == [] then Ready(call)
    else if todo[0].job == "" then Drop(call, todo)
    else ReadState(call, todo)
  }

  /** After a removal: wake the job it answered, if any, then go on. */
  function Waking(r: Reply, next: PC): PC {
    if Signal(r).Some? && Signal(r).value != "" then IsDelayed(Signal(r).value, next) else next
  }

  /** `pc` is about to run `script` on `key`. A take draws its own ticket as it runs. */
  predicate Due(pc: PC, leaseMs: int, key: string, script: Script) {
    match pc
    case Scan(call) => key == call.key && script == EXPIRED
    case Keep(call, todo) => key == call.key && todo != [] && script == RENEW(todo[0].ticket, leaseMs)
    case Drop(call, todo) => key == call.key && todo != [] && script == REMOVE(todo[0].ticket, true)
    case Ready(TakeCall(k, request, ifEmpty, jobId)) =>
      key == k && script.TAKE?
      && script == TAKE(script.ticket, request, ifEmpty, leaseMs,
                        if jobId.Some? then jobId.value else LeaseJobId(script.ticket))
    case Ready(TurnCall(k, ticket)) => key == k && script == TURN(ticket)
    case GiveBack(k, ticket) => key == k && script == REMOVE(ticket, false)
    case RenewPlace(k, ticket) => key == k && script == RENEW(ticket, leaseMs)
    case _ => false
  }

  function AfterScript(pc: PC, r: Reply): PC {
    match pc
    case Scan(call) => Loop(call, if r.Found? then r.lapsed else [])
    case Keep(call, todo) => Loop(call, if todo == [] then [] else todo[1..])
    case Drop(call, todo) => Waking(r, Loop(call, if todo == [] then [] else todo[1..]))
    case GiveBack(_, _) => Waking(r, Idle)
    case _ => Idle
  }

  // ----- The system -----

  datatype State = State(
    lines: map<string, Line>,
    now: int,
    jobs: map<string, JobState>,
    procs: map<nat, PC>,
    used: set<string>,
    leaseMs: int)

  datatype Event =
    | Ticks
    | JobsMove
    | Starts(pid: nat, pc: PC)
    | Stops(pid: nat)
    | Ran(pid: nat, key: string, script: Script, reply: Reply)
    | Reads(pid: nat, key: string, place: Lapsed, state: JobState)
    | ReadsDelayed(pid: nat)
    | Promotes(pid: nat)

  function LineOf(s: State, key: string): Line {
    Get(s.lines, key, EMPTY_LINE)
  }

  function At(s: State, pid: nat): PC {
    if pid in s.procs then s.procs[pid] else Idle
  }

  predicate Init(s: State) {
    s.lines == map[] && s.procs == map[] && s.used == {}
  }

  predicate Next(s: State, e: Event, s': State) {
    match e
    case Ticks => s'.now >= s.now && s' == s.(now := s'.now)
    case JobsMove => s' == s.(jobs := s'.jobs)
    case Starts(pid, pc) =>
      && At(s, pid) == Idle && (pc.Scan? || pc.GiveBack? || pc.RenewPlace?)
      && s' == s.(procs := s.procs[pid := pc])
    case Stops(pid) => s' == s.(procs := s.procs[pid := Idle])
    case Ran(pid, key, script, reply) =>
      && Due(At(s, pid), s.leaseMs, key, script)
      && (script.TAKE? ==> script.ticket !in s.used)
      && reply == Exec(LineOf(s, key), s.now, script).1
      && s' == s.(lines := s.lines[key := Exec(LineOf(s, key), s.now, script).0],
                  procs := s.procs[pid := AfterScript(At(s, pid), reply)],
                  used := if script.TAKE? then s.used + {script.ticket} else s.used)
    case Reads(pid, key, place, state) =>
      var pc := At(s, pid);
      && pc.ReadState? && pc.todo != [] && key == pc.call.key && place == pc.todo[0]
      && state == StateOf(s.jobs, place.job)
      && s' == s.(procs := s.procs[pid := if Returning(state) then Keep(pc.call, pc.todo) else Drop(pc.call, pc.todo)])
    case ReadsDelayed(pid) =>
      var pc := At(s, pid);
      && pc.IsDelayed?
      && s' == s.(procs := s.procs[pid :=
                    if Get(s.jobs, pc.job, Unknown) == Delayed then Promote(pc.job, pc.next) else pc.next])
    case Promotes(pid) =>
      var pc := At(s, pid);
      && pc.Promote?
      && s' == s.(jobs := Promoted(s.jobs, pc.job), procs := s.procs[pid := pc.next])
  }

  ghost predicate StepAt(ss: seq<State>, es: seq<Event>, i: nat)
    requires i < |es| && |ss| == |es| + 1
  {
    Next(ss[i], es[i], ss[i + 1])
  }

  /** A run: states joined by the events between them. */
  ghost predicate Run(ss: seq<State>, es: seq<Event>) {
    && |ss| == |es| + 1
    && Init(ss[0])
    && forall i :: 0 <= i < |es| ==> StepAt(ss, es, i)
  }

  // ----- What a run shows -----

  predicate Takes(e: Event, key: string, t: string) {
    e.Ran? && e.key == key && e.script.TAKE? && e.script.ticket == t && e.reply == Placed
  }

  predicate Removes(e: Event, key: string, t: string) {
    e.Ran? && e.key == key && e.script.REMOVE? && e.script.ticket == t && e.reply.Dropped?
  }

  predicate Leases(e: Event, key: string, t: string) {
    Takes(e, key, t) || (e.Ran? && e.key == key && e.script.RENEW? && e.script.ticket == t && e.reply == Renewed(true))
  }

  /** The answer that lets `t` run: TURN's 1, or a place granted on an empty line. */
  predicate Grants(e: Event, key: string, t: string) {
    e.Ran? && e.key == key
    && ((e.script == TURN(t) && e.reply == Turned(First)) || (Takes(e, key, t) && e.script.ifEmpty))
  }

  /** The tickets taken on `key`, in the order of their TAKE steps. */
  function Taken(es: seq<Event>, key: string): seq<string> {
    if es == [] then []
    else
      var e := es[|es| - 1];
      Taken(es[..|es| - 1], key)
      + (if e.Ran? && e.key == key && e.script.TAKE? && e.reply == Placed then [e.script.ticket] else [])
  }

  /** The tickets removed on `key`. */
  function Gone(es: seq<Event>, key: string): set<string> {
    if es == [] then {}
    else
      var e := es[|es| - 1];
      Gone(es[..|es| - 1], key)
      + (if e.Ran? && e.key == key && e.script.REMOVE? && e.reply.Dropped? then {e.script.ticket} else {})
  }

  // ----- FIFO -----

  /** What holds of one key in the state a run `es` has reached. */
  ghost predicate KeyInv(s: State, es: seq<Event>, key: string) {
    && Wf(LineOf(s, key))
    && Tickets(LineOf(s, key).line) == Surviving(Taken(es, key), Gone(es, key))
    && Members(Taken(es, key)) <= s.used
    && Gone(es, key) <= Members(Taken(es, key))
    && NoDuplicates(Taken(es, key))
  }

  lemma KeyInvStep(s: State, es: seq<Event>, e: Event, s': State, key: string)
    requires KeyInv(s, es, key) && Next(s, e, s')
    ensures KeyInv(s', es + [e], key)
  {
    assert (es + [e])[..|es|] == es;
    var l, ts, gone := LineOf(s, key), Taken(es, key), Gone(es, key);
    assert ts + [] == ts && gone + {} == gone;
    if e.Ran? && e.key == key {
      ScriptsKeepWf(l, s.now, e.script);
      ScriptOrder(l, s.now, e.script);
      if e.script.TAKE? && e.reply == Placed {
        var t := e.script.ticket;
        SurvivingAll(Tickets(l.line), {t});
        NoDuplicatesAppend(ts, t);
        SurvivingAppend(ts, [t], gone);
        SurvivingAll([t], gone);
      } else if e.reply.Dropped? {
        SurvivingTwice(ts, gone, {e.script.ticket});
      }
    }
  }

  lemma {:induction false} KeyInvHolds(ss: seq<State>, es: seq<Event>, key: string)
    requires Run(ss, es)
    ensures KeyInv(ss[|es|], es, key)
    decreases |es|
  {
    if es != [] {
      var n := |es| - 1;
      RunPrefix(ss, es, n);
      KeyInvHolds(ss[..n + 1], es[..n], key);
      assert StepAt(ss, es, n);
      KeyInvStep(ss[n], es[..n], es[n], ss[n + 1], key);
      assert es[..n] + [es[n]] == es;
    }
  }

  lemma RunPrefix(ss: seq<State>, es: seq<Event>, n: nat)
    requires Run(ss, es) && n <= |es|
    ensures Run(ss[..n + 1], es[..n])
  {
    var ss', es' := ss[..n + 1], es[..n];
    forall i | 0 <= i < n ensures StepAt(ss', es', i) {
      assert StepAt(ss, es, i);
    }
  }

  /**
   FIFO over every run. However takes, renewals, reconciles and give-backs
   interleave, each key's line is the history of its TAKE steps with the
   removed tickets struck out; its scores rise and stay within the counter, and
   its hashes hold exactly its tickets, through every restart of the counter.
   */
  lemma FirstInFirstOut(ss: seq<State>, es: seq<Event>, i: nat, key: string)
    requires Run(ss, es) && i <= |es|
    ensures Wf(LineOf(ss[i], key))
    ensures Tickets(LineOf(ss[i], key).line) == Surviving(Taken(es[..i], key), Gone(es[..i], key))
    ensures NoDuplicates(Taken(es[..i], key))
  {
    KeyInvAt(ss, es, i, key);
  }

  lemma KeyInvAt(ss: seq<State>, es: seq<Event>, i: nat, key: string)
    requires Run(ss, es) && i <= |es|
    ensures KeyInv(ss[i], es[..i], key)
  {
    RunPrefix(ss, es, i);
    KeyInvHolds(ss[..i + 1], es[..i], key);
  }

  // ----- One place over a run -----

  /**
   One step as one place sees it: a place that stands after the step stood
   before it, unless the step is its take; it keeps its request and job, never
   moves back, and its lease changes only when it is renewed.
   */
  lemma PlaceStep(s: State, e: Event, s': State, key: string, t: string)
    requires Wf(LineOf(s, key)) && Members(Tickets(LineOf(s, key).line)) <= s.used
    requires Next(s, e, s') && t in s.used && InLine(LineOf(s', key), t)
    ensures InLine(LineOf(s, key), t)
    ensures var l, l' := LineOf(s, key), LineOf(s', key);
      && t in l.exp && t in l'.exp && t in l.req && t in l'.req && t in l.job && t in l'.job
      && l'.req[t] == l.req[t] && l'.job[t] == l.job[t]
      && IndexOf(Tickets(l'.line), t) <= IndexOf(Tickets(l.line), t)
      && (l'.exp[t] == l.exp[t] || (Leases(e, key, t) && l'.exp[t] == s.now + s.leaseMs))
  {
    var l := LineOf(s, key);
    if e.Ran? && e.key == key {
      ScriptPlace(l, s.now, e.script, t);
    } else {
      assert LineOf(s', key) == l;
    }
  }

  lemma PlaceStepAt(ss: seq<State>, es: seq<Event>, j: nat, key: string, t: string)
    requires Run(ss, es) && j < |es| && t in ss[j].used && InLine(LineOf(ss[j + 1], key), t)
    ensures InLine(LineOf(ss[j], key), t)
    ensures var l, l' := LineOf(ss[j], key), LineOf(ss[j + 1], key);
      && t in l.exp && t in l'.exp && t in l.req && t in l'.req && t in l.job && t in l'.job
      && l'.req[t] == l.req[t] && l'.job[t] == l.job[t]
      && IndexOf(Tickets(l'.line), t) <= IndexOf(Tickets(l.line), t)
      && (l'.exp[t] == l.exp[t] || (Leases(es[j], key, t) && l'.exp[t] == ss[j].now + ss[j].leaseMs))
  {
    KeyInvAt(ss, es, j, key);
    assert StepAt(ss, es, j);
    PlaceStep(ss[j], es[j], ss[j + 1], key, t);
  }

  lemma StandingIsUsed(ss: seq<State>, es: seq<Event>, i: nat, key: string, t: string)
    requires Run(ss, es) && i <= |es| && InLine(LineOf(ss[i], key), t)
    ensures t in ss[i].used
  {
    KeyInvAt(ss, es, i, key);
  }

  lemma {:induction false} UsedGrows(ss: seq<State>, es: seq<Event>, i: nat, j: nat)
    requires Run(ss, es) && i <= j <= |es|
    ensures ss[i].used <= ss[j].used && ss[i].now <= ss[j].now && ss[i].leaseMs == ss[j].leaseMs
    decreases j
  {
    if i < j {
      UsedGrows(ss, es, i, j - 1);
      assert StepAt(ss, es, j - 1);
    }
  }

  /** A place that stands at `i` and at `j` kept its request and job between them and never moved back. */
  lemma {:induction false} NeverFallsBack(ss: seq<State>, es: seq<Event>, i: nat, j: nat, key: string, t: string)
    requires Run(ss, es) && i <= j <= |es|
    requires InLine(LineOf(ss[i], key), t) && InLine(LineOf(ss[j], key), t)
    ensures IndexOf(Tickets(LineOf(ss[j], key).line), t) <= IndexOf(Tickets(LineOf(ss[i], key).line), t)
    ensures Get(LineOf(ss[j], key).req, t, "") == Get(LineOf(ss[i], key).req, t, "")
    ensures Get(LineOf(ss[j], key).job, t, "") == Get(LineOf(ss[i], key).job, t, "")
    decreases j
  {
    if i < j {
      StandingIsUsed(ss, es, i, key, t);
      UsedGrows(ss, es, i, j - 1);
      PlaceStepAt(ss, es, j - 1, key, t);
      NeverFallsBack(ss, es, i, j - 1, key, t);
    }
  }

  /** A ticket that has left its line never stands again. */
  lemma {:induction false} NeverReturns(ss: seq<State>, es: seq<Event>, i: nat, j: nat, key: string, t: string)
    requires Run(ss, es) && i <= j <= |es|
    requires t in ss[i].used && !InLine(LineOf(ss[i], key), t)
    ensures !InLine(LineOf(ss[j], key), t)
    decreases j
  {
    if i < j {
      NeverReturns(ss, es, i, j - 1, key, t);
      UsedGrows(ss, es, i, j - 1);
      if InLine(LineOf(ss[j], key), t) {
        PlaceStepAt(ss, es, j - 1, key, t);
      }
    }
  }

  // ----- Mutual exclusion -----

  /** The head stays the head until it is removed. */
  lemma HeadStep(s: State, es: seq<Event>, e: Event, s': State, key: string, t: string)
    requires KeyInv(s, es, key) && Next(s, e, s')
    requires Head(LineOf(s, key)) == Some(t) && !Removes(e, key, t)
    ensures Head(LineOf(s', key)) == Some(t)
  {
    if e.Ran? && e.key == key {
      var l := LineOf(s, key);
      ScriptOrder(l, s.now, e.script);
      if e.reply == Placed {
        TakeKeepsHead(l, s.now, e.script);
      } else if e.reply.Dropped? {
        RemovedHead(l, s.now, e.script.ticket, e.script.onlyIfExpired);
      }
    }
  }

  /** A grant is given to the head, or to a place taken on an empty line, which is first at once. */
  lemma GrantIsHead(s: State, es: seq<Event>, e: Event, s': State, key: string, t: string)
    requires KeyInv(s, es, key) && Next(s, e, s') && Grants(e, key, t)
    ensures Head(LineOf(s', key)) == Some(t)
    ensures Head(LineOf(s, key)) in {None, Some(t)}
  {
    if e.script.TAKE? {
      TakeOrder(LineOf(s, key), s.now, e.script);
    }
  }

  lemma {:induction false} HeadStands(ss: seq<State>, es: seq<Event>, i: nat, j: nat, key: string, t: string)
    requires Run(ss, es) && i <= j <= |es|
    requires Head(LineOf(ss[i], key)) == Some(t)
    requires forall m :: i <= m < j ==> !Removes(es[m], key, t)
    ensures Head(LineOf(ss[j], key)) == Some(t)
    decreases j
  {
    if i < j {
      HeadStands(ss, es, i, j - 1, key, t);
      KeyInvAt(ss, es, j - 1, key);
      assert StepAt(ss, es, j - 1);
      HeadStep(ss[j - 1], es[..j - 1], es[j - 1], ss[j], key, t);
    }
  }

  /**
   Mutual exclusion. Between two grants on one key to different tickets, the
   first ticket was removed.
   */
  lemma MutualExclusion(ss: seq<State>, es: seq<Event>, i: nat, j: nat, key: string, t: string, u: string)
    requires Run(ss, es) && i < j < |es|
    requires Grants(es[i], key, t) && Grants(es[j], key, u) && t != u
    ensures exists m :: i < m < j && Removes(es[m], key, t)
  {
    KeyInvAt(ss, es, i, key);
    KeyInvAt(ss, es, j, key);
    assert StepAt(ss, es, i) && StepAt(ss, es, j);
    GrantIsHead(ss[i], es[..i], es[i], ss[i + 1], key, t);
    GrantIsHead(ss[j], es[..j], es[j], ss[j + 1], key, u);
    if forall m :: i + 1 <= m < j ==> !Removes(es[m], key, t) {
      HeadStands(ss, es, i + 1, j, key, t);
    }
  }

  /** A held answer changes no line and names the request the standing head was taken for. */
  lemma HeldNamesHead(ss: seq<State>, es: seq<Event>, i: nat, j: nat, key: string, t: string)
    requires Run(ss, es) && i < j < |es| && Takes(es[i], key, t)
    requires es[j].Ran? && es[j].key == key && es[j].reply.Held? && Head(LineOf(ss[j], key)) == Some(t)
    ensures es[j].reply == Held(es[i].script.request)
    ensures LineOf(ss[j + 1], key) == LineOf(ss[j], key)
  {
    assert StepAt(ss, es, j);
    TakenStands(ss, es, i, key, t);
    HeadIsIn(LineOf(ss[j], key), t);
    NeverFallsBack(ss, es, i + 1, j, key, t);
    KeyInvAt(ss, es, j, key);
  }

  lemma HeadIsIn(l: Line, t: string)
    requires Head(l) == Some(t)
    ensures InLine(l, t)
  {
    assert Tickets(l.line)[0] == t;
  }

  /** A taken place stands with the request and job of its take. */
  lemma TakenStands(ss: seq<State>, es: seq<Event>, i: nat, key: string, t: string)
    requires Run(ss, es) && i < |es| && Takes(es[i], key, t)
    ensures InLine(LineOf(ss[i + 1], key), t)
    ensures Get(LineOf(ss[i + 1], key).req, t, "") == es[i].script.request
    ensures Get(LineOf(ss[i + 1], key).job, t, "") == es[i].script.job
    ensures Get(LineOf(ss[i + 1], key).exp, t, 0) == ss[i].now + ss[i].leaseMs
  {
    KeyInvAt(ss, es, i, key);
    assert StepAt(ss, es, i);
    var ts := Tickets(LineOf(ss[i], key).line);
    TakeOrder(LineOf(ss[i], key), ss[i].now, es[i].script);
    MembersAppend(Surviving(ts, {t}), [t]);
  }

  // ----- Hand-over -----

  /**
   Exact hand-over. A step gives a line it does not empty another head exactly
   when it is a removal that answers a job; that job is the new head's own, and
   the process that removed goes on to wake it.
   */
  lemma HandsOverExactly(ss: seq<State>, es: seq<Event>, i: nat, key: string)
    requires Run(ss, es) && i < |es|
    ensures PassesOn(LineOf(ss[i], key), LineOf(ss[i + 1], key))
      <==> (es[i].Ran? && es[i].key == key && Signal(es[i].reply).Some?)
    ensures PassesOn(LineOf(ss[i], key), LineOf(ss[i + 1], key)) ==>
      var job := Signal(es[i].reply).value;
      && Get(LineOf(ss[i + 1], key).job, Head(LineOf(ss[i + 1], key)).value, "") == job
      && (job != "" ==> At(ss[i + 1], es[i].pid).IsDelayed? && At(ss[i + 1], es[i].pid).job == job)
  {
    KeyInvAt(ss, es, i, key);
    assert StepAt(ss, es, i);
    if es[i].Ran? && es[i].key == key {
      ExactHandOver(LineOf(ss[i], key), ss[i].now, es[i].script);
      ScriptOrder(LineOf(ss[i], key), ss[i].now, es[i].script);
    }
  }

  lemma {:induction false} StandsStill(ss: seq<State>, es: seq<Event>, i: nat, j: nat, pid: nat)
    requires Run(ss, es) && i <= j <= |es| && forall m :: i <= m < j ==> !StepOf(es[m], pid)
    ensures At(ss[j], pid) == At(ss[i], pid)
    decreases j
  {
    if i < j {
      StandsStill(ss, es, i, j - 1, pid);
      assert StepAt(ss, es, j - 1);
    }
  }

  /**
   The wake is carried through. The two next steps of the process that handed the
   line over, unless it stops, read the new head's job and promote it, if it was
   delayed and still is.
   */
  lemma WakesTheNewHead(ss: seq<State>, es: seq<Event>, i: nat, m: nat, n: nat, key: string, job: string)
    requires Run(ss, es) && i < m < n < |es| && PassesOn(LineOf(ss[i], key), LineOf(ss[i + 1], key))
    requires job == Get(LineOf(ss[i + 1], key).job, Head(LineOf(ss[i + 1], key)).value, "") && job != ""
    requires es[i].Ran? && StepOf(es[m], es[i].pid) && StepOf(es[n], es[i].pid) && !es[m].Stops? && !es[n].Stops?
    requires forall k :: i < k < m || m < k < n ==> !StepOf(es[k], es[i].pid)
    requires Get(ss[m].jobs, job, Unknown) == Delayed && Get(ss[n].jobs, job, Unknown) == Delayed
    ensures es[m] == ReadsDelayed(es[i].pid) && es[n] == Promotes(es[i].pid)
    ensures Get(ss[n + 1].jobs, job, Unknown) == Waiting
  {
    var pid := es[i].pid;
    HandsOverExactly(ss, es, i, key);
    StandsStill(ss, es, i + 1, m, pid);
    assert StepAt(ss, es, m) && StepAt(ss, es, n);
    StandsStill(ss, es, m + 1, n, pid);
  }

  /** However many processes race to remove a ticket, one of them does, so one wakes the next. */
  lemma RemovedOnce(ss: seq<State>, es: seq<Event>, i: nat, j: nat, key: string, t: string)
    requires Run(ss, es) && i < j < |es| && Removes(es[i], key, t)
    ensures !Removes(es[j], key, t)
  {
    RemovalLeaves(ss, es, i, key, t);
    NeverReturns(ss, es, i + 1, j, key, t);
    if Removes(es[j], key, t) {
      RemovalLeaves(ss, es, j, key, t);
    }
  }

  lemma RemovalLeaves(ss: seq<State>, es: seq<Event>, i: nat, key: string, t: string)
    requires Run(ss, es) && i < |es| && Removes(es[i], key, t)
    ensures InLine(LineOf(ss[i], key), t) && !InLine(LineOf(ss[i + 1], key), t)
    ensures t in ss[i].used && t in ss[i + 1].used
  {
    KeyInvAt(ss, es, i, key);
    assert StepAt(ss, es, i);
    ScriptOrder(LineOf(ss[i], key), ss[i].now, es[i].script);
  }

  // ----- Lease safety -----

  lemma {:induction false} LeaseStands(ss: seq<State>, es: seq<Event>, i: nat, j: nat, key: string, t: string)
    requires Run(ss, es) && i < j <= |es| && Leases(es[i], key, t) && InLine(LineOf(ss[j], key), t)
    ensures Get(LineOf(ss[j], key).exp, t, 0) >= ss[i].now + ss[i].leaseMs
    decreases j
  {
    UsedGrows(ss, es, i, j - 1);
    if j == i + 1 {
      LeaseBegins(ss, es, i, key, t);
    } else {
      LeaseIsUsed(ss, es, i, key, t);
      UsedGrows(ss, es, i + 1, j - 1);
      PlaceStepAt(ss, es, j - 1, key, t);
      LeaseStands(ss, es, i, j - 1, key, t);
    }
  }

  lemma LeaseBegins(ss: seq<State>, es: seq<Event>, i: nat, key: string, t: string)
    requires Run(ss, es) && i < |es| && Leases(es[i], key, t)
    ensures Get(LineOf(ss[i + 1], key).exp, t, 0) == ss[i].now + ss[i].leaseMs
  {
    assert StepAt(ss, es, i);
    if Takes(es[i], key, t) {
      TakenStands(ss, es, i, key, t);
    }
  }

  lemma LeaseIsUsed(ss: seq<State>, es: seq<Event>, i: nat, key: string, t: string)
    requires Run(ss, es) && i < |es| && Leases(es[i], key, t)
    ensures t in ss[i + 1].used
  {
    assert StepAt(ss, es, i);
    if !Takes(es[i], key, t) {
      KeyInvAt(ss, es, i, key);
    }
  }

  /**
   A place leaves by a give-back of its own, or by a reconcile at an instant
   when every lease it was ever given, at its take and at each renewal, has run
   out. So a place renewed within `leaseMs` is not dropped by anybody.
   */
  lemma DroppedOnlyOnceLapsed(ss: seq<State>, es: seq<Event>, i: nat, j: nat, key: string, t: string)
    requires Run(ss, es) && i < j < |es| && Leases(es[i], key, t) && Removes(es[j], key, t)
    ensures At(ss[j], es[j].pid) == GiveBack(key, t) || ss[i].now + ss[i].leaseMs < ss[j].now
  {
    assert StepAt(ss, es, j);
    if es[j].script.onlyIfExpired {
      RemovalLeaves(ss, es, j, key, t);
      LeaseStands(ss, es, i, j, key, t);
    }
  }

  // ----- The read behind a drop -----

  /** The lapsed places a process still has to settle, and on which key. */
  function Todo(pc: PC): seq<Lapsed> {
    match pc
    case ReadState(_, todo) => todo
    case Keep(_, todo) => todo
    case Drop(_, todo) => todo
    case IsDelayed(_, next) => Todo(next)
    case Promote(_, next) => Todo(next)
    case _ => []
  }

  function KeyOf(pc: PC): string {
    match pc
    case ReadState(call, _) => call.key
    case Keep(call, _) => call.key
    case Drop(call, _) => call.key
    case IsDelayed(_, next) => KeyOf(next)
    case Promote(_, next) => KeyOf(next)
    case _ => ""
  }

  /** A scanned place was taken once, and while it stands the job scanned with it is its own. */
  ghost predicate ScannedOk(s: State, key: string, x: Lapsed) {
    && x.ticket in s.used
    && (InLine(LineOf(s, key), x.ticket) ==> Get(LineOf(s, key).job, x.ticket, "") == x.job)
  }

  ghost predicate TodoOk(s: State, pid: nat) {
    forall x :: x in Todo(At(s, pid)) ==> ScannedOk(s, KeyOf(At(s, pid)), x)
  }

  lemma {:induction false} ScanIsOk(l: Line, now: int, z: seq<Entry>, x: Lapsed)
    requires x in ExpiredOf(l, now, z)
    ensures x.ticket in Members(Tickets(z)) && x.job == Get(l.job, x.ticket, "")
  {
    assert Tickets(z)[1..] == Tickets(z[1..]);
    if !HasExpired(l, now, z[0].ticket) || x != Lapsed(z[0].ticket, Get(l.job, z[0].ticket, "")) {
      ScanIsOk(l, now, z[1..], x);
    }
  }

  /** Time does not spoil a scan: what was right about a scanned place stays right. */
  lemma ScannedStays(ss: seq<State>, es: seq<Event>, j: nat, key: string, x: Lapsed)
    requires Run(ss, es) && j < |es| && ScannedOk(ss[j], key, x)
    ensures ScannedOk(ss[j + 1], key, x)
  {
    UsedGrows(ss, es, j, j + 1);
    if InLine(LineOf(ss[j + 1], key), x.ticket) {
      PlaceStepAt(ss, es, j, key, x.ticket);
    }
  }

  /** What a step leaves a process to settle, it had to settle before or scanned just now. */
  lemma TodoStep(s: State, e: Event, s': State, pid: nat, x: Lapsed)
    requires Next(s, e, s') && x in Todo(At(s', pid))
    ensures (x in Todo(At(s, pid)) && KeyOf(At(s', pid)) == KeyOf(At(s, pid)))
         || (e.Ran? && e.pid == pid && e.script == EXPIRED && e.key == KeyOf(At(s', pid))
             && x in ExpiredOf(LineOf(s, e.key), s.now, LineOf(s, e.key).line))
  {
  }

  lemma {:induction false} TodoHolds(ss: seq<State>, es: seq<Event>, j: nat, pid: nat)
    requires Run(ss, es) && j <= |es|
    ensures TodoOk(ss[j], pid)
    decreases j
  {
    if j > 0 {
      TodoHolds(ss, es, j - 1, pid);
      assert StepAt(ss, es, j - 1);
      var key := KeyOf(At(ss[j], pid));
      forall x | x in Todo(At(ss[j], pid)) ensures ScannedOk(ss[j], key, x) {
        TodoStep(ss[j - 1], es[j - 1], ss[j], pid, x);
        if !(x in Todo(At(ss[j - 1], pid)) && key == KeyOf(At(ss[j - 1], pid))) {
          ScanIsOk(LineOf(ss[j - 1], key), ss[j - 1].now, LineOf(ss[j - 1], key).line, x);
          StandingIsUsed(ss, es, j - 1, key, x.ticket);
        }
        ScannedStays(ss, es, j - 1, key, x);
      }
    }
  }

  predicate StepOf(e: Event, pid: nat) {
    (e.Starts? || e.Stops? || e.Ran? || e.Reads? || e.ReadsDelayed? || e.Promotes?) && e.pid == pid
  }

  /** At `i`, `pid` read the state of the job recorded on `x`, and has taken no other step up to `j`. */
  ghost predicate JustRead(ss: seq<State>, es: seq<Event>, i: nat, j: nat, pid: nat, key: string, x: Lapsed)
    requires i < j <= |es| < |ss|
  {
    && es[i].Reads? && es[i].pid == pid && es[i].key == key && es[i].place == x && x.job != ""
    && es[i].state == (if x.job in ss[i].jobs then ss[i].jobs[x.job] else Unknown)
    && forall m :: i < m < j ==> !StepOf(es[m], pid)
  }

  /** `pid` has just read a job that is not coming back, or the place has none to read. */
  ghost predicate ReadGone(ss: seq<State>, es: seq<Event>, j: nat, pid: nat, key: string, x: Lapsed)
    requires j <= |es| < |ss|
  {
    x.job == ""
    || exists i :: 0 <= i < j && JustRead(ss, es, i, j, pid, key, x)
                   && es[i].state in {Active, Completed, Failed, Unknown}
  }

  /** `pid` has just read a job that is coming back. */
  ghost predicate ReadBack(ss: seq<State>, es: seq<Event>, j: nat, pid: nat, key: string, x: Lapsed)
    requires j <= |es| < |ss|
  {
    exists i :: 0 <= i < j && JustRead(ss, es, i, j, pid, key, x)
                && es[i].state in {Waiting, Delayed, Prioritized, WaitingChildren}
  }

  /** `next` is no wake, and no renewal or drop of a place with a job. */
  predicate ReadsNext(next: PC) {
    && !next.IsDelayed? && !next.Promote? && !next.Keep?
    && (next.Drop? ==> next.todo != [] && next.todo[0].job == "")
  }

  /** No pending step after a wake settles a place with a job: reconcile's loop reads first. */
  ghost predicate NextReads(pc: PC) {
    match pc
    case IsDelayed(_, next) => ReadsNext(next)
    case Promote(_, next) => ReadsNext(next)
    case _ => true
  }

  lemma {:induction false} NextReadsHolds(ss: seq<State>, es: seq<Event>, j: nat, pid: nat)
    requires Run(ss, es) && j <= |es|
    ensures NextReads(At(ss[j], pid))
    decreases j
  {
    if j > 0 {
      NextReadsHolds(ss, es, j - 1, pid);
      assert StepAt(ss, es, j - 1);
    }
  }

  /** A read is still the latest step of its process after a step of another. */
  lemma ReadStands(ss: seq<State>, es: seq<Event>, j: nat, pid: nat, key: string, x: Lapsed)
    requires j < |es| < |ss| && !StepOf(es[j], pid)
    ensures ReadGone(ss, es, j, pid, key, x) ==> ReadGone(ss, es, j + 1, pid, key, x)
    ensures ReadBack(ss, es, j, pid, key, x) ==> ReadBack(ss, es, j + 1, pid, key, x)
  {
    forall i | 0 <= i < j && JustRead(ss, es, i, j, pid, key, x)
      ensures JustRead(ss, es, i, j + 1, pid, key, x) {
    }
  }

  /** A read of a job settles whether its place is kept or dropped. */
  lemma ReadDecides(ss: seq<State>, es: seq<Event>, j: nat, pid: nat)
    requires j < |es| && |ss| == |es| + 1 && StepAt(ss, es, j) && es[j].Reads? && es[j].pid == pid
    ensures var pc := At(ss[j + 1], pid);
      && (pc.Drop? || pc.Keep?) && pc.todo != []
      && (pc.Drop? ==> ReadGone(ss, es, j + 1, pid, pc.call.key, pc.todo[0]))
      && (pc.Keep? ==> ReadBack(ss, es, j + 1, pid, pc.call.key, pc.todo[0]))
  {
    var x, state := es[j].place, es[j].state;
    assert state.Waiting? || state.Delayed? || state.Prioritized? || state.WaitingChildren?
        || state.Active? || state.Completed? || state.Failed? || state.Unknown?;
    if x.job != "" {
      assert JustRead(ss, es, j, j + 1, pid, es[j].key, x);
    }
  }

  /**
   A process about to drop a place has just read its job as gone, unless the place
   never had one; one about to keep it has just read it as coming back.
   */
  lemma {:induction false} AboutToSettle(ss: seq<State>, es: seq<Event>, j: nat, pid: nat)
    requires Run(ss, es) && j <= |es| && (At(ss[j], pid).Drop? || At(ss[j], pid).Keep?)
    ensures var pc := At(ss[j], pid);
      && pc.todo != []
      && (pc.Drop? ==> ReadGone(ss, es, j, pid, pc.call.key, pc.todo[0]))
      && (pc.Keep? ==> ReadBack(ss, es, j, pid, pc.call.key, pc.todo[0]))
    decreases j
  {
    if j > 0 {
      assert StepAt(ss, es, j - 1);
      var pc := At(ss[j], pid);
      if !StepOf(es[j - 1], pid) {
        AboutToSettle(ss, es, j - 1, pid);
        ReadStands(ss, es, j - 1, pid, pc.call.key, pc.todo[0]);
      } else if es[j - 1].Reads? {
        ReadDecides(ss, es, j - 1, pid);
      } else {
        NextReadsHolds(ss, es, j - 1, pid);
      }
    }
  }

  /**
   Reconcile safety. A place that a reconcile removes had run out at that very
   instant, and the same process, with no step between, had read the job
   recorded on it as not coming back, or the place had no job to read.
   */
  lemma DroppedAfterRead(ss: seq<State>, es: seq<Event>, j: nat, key: string, t: string)
    requires Run(ss, es) && j < |es| && Removes(es[j], key, t)
    ensures At(ss[j], es[j].pid) == GiveBack(key, t)
      || (var x := Lapsed(t, Get(LineOf(ss[j], key).job, t, ""));
          HasExpired(LineOf(ss[j], key), ss[j].now, t) && ReadGone(ss, es, j, es[j].pid, key, x))
  {
    assert StepAt(ss, es, j);
    var pid := es[j].pid;
    if At(ss[j], pid).Drop? {
      AboutToSettle(ss, es, j, pid);
      TodoHolds(ss, es, j, pid);
      RemovalLeaves(ss, es, j, key, t);
      assert At(ss[j], pid).todo[0] in Todo(At(ss[j], pid));
    }
  }

  // ----- Every lapsed place is settled -----

  /** `pid`'s step at `k` settles `x`: a removal after a read as gone, or a renewal after a read as coming back. */
  ghost predicate Settles(ss: seq<State>, es: seq<Event>, k: nat, pid: nat, key: string, x: Lapsed)
    requires k < |es| < |ss|
  {
    && es[k].Ran? && es[k].pid == pid && es[k].key == key
    && ((es[k].script == REMOVE(x.ticket, true) && ReadGone(ss, es, k, pid, key, x))
        || (es[k].script == RENEW(x.ticket, ss[k].leaseMs) && ReadBack(ss, es, k, pid, key, x)))
  }

  ghost predicate SettledSince(ss: seq<State>, es: seq<Event>, i: nat, j: nat, pid: nat, key: string, x: Lapsed)
    requires j <= |es| < |ss|
  {
    exists k :: i < k < j && Settles(ss, es, k, pid, key, x)
  }

  /** `pid` scanned `key` at `i` and has neither stopped nor run its own TAKE or TURN up to `j`. */
  ghost predicate ScannedSince(es: seq<Event>, i: nat, j: nat, pid: nat, key: string)
    requires i < j <= |es|
  {
    && es[i].Ran? && es[i].pid == pid && es[i].key == key && es[i].script == EXPIRED
    && (forall m :: i < m < j ==> es[m] != Stops(pid))
    && (forall m :: i < m < j && es[m].Ran? && es[m].pid == pid ==> !es[m].script.TAKE? && !es[m].script.TURN?)
  }

  /** A process past its scan and before its own script. */
  predicate Reconciling(pc: PC, key: string) {
    match pc
    case ReadState(call, todo) => call.key == key && todo != []
    case Keep(call, todo) => call.key == key && todo != []
    case Drop(call, todo) => call.key == key && todo != []
    case Ready(call) => call.key == key
    case IsDelayed(_, next) => Reconciling(next, key)
    case Promote(_, next) => Reconciling(next, key)
    case _ => false
  }

  /** What one step leaves unsettled: a place settled by it was next, every other is still to do. */
  lemma ReconcilingStep(ss: seq<State>, es: seq<Event>, j: nat, pid: nat, key: string, x: Lapsed)
    requires Run(ss, es) && j < |es| && Reconciling(At(ss[j], pid), key) && x in Todo(At(ss[j], pid))
    requires es[j] != Stops(pid)
    ensures x in Todo(At(ss[j + 1], pid)) || Settles(ss, es, j, pid, key, x)
  {
    assert StepAt(ss, es, j);
    var pc := At(ss[j], pid);
    if pc.Drop? || pc.Keep? {
      AboutToSettle(ss, es, j, pid);
      assert x == pc.todo[0] || x in pc.todo[1..];
    }
  }

  lemma StaysReconciling(s: State, e: Event, s': State, pid: nat, key: string)
    requires Next(s, e, s') && Reconciling(At(s, pid), key)
    requires e != Stops(pid) && !(e.Ran? && e.pid == pid && (e.script.TAKE? || e.script.TURN?))
    ensures Reconciling(At(s', pid), key)
  {
  }

  /** A scan leaves its process every lapsed place of the line to settle. */
  lemma ScanBegins(s: State, e: Event, s': State, t: string)
    requires Next(s, e, s') && e.Ran? && e.script == EXPIRED && Wf(LineOf(s, e.key))
    requires t in LineOf(s, e.key).exp && LineOf(s, e.key).exp[t] < s.now
    ensures Reconciling(At(s', e.pid), e.key)
    ensures Lapsed(t, Get(LineOf(s, e.key).job, t, "")) in Todo(At(s', e.pid))
  {
    ScanLists(LineOf(s, e.key), s.now, LineOf(s, e.key).line, t);
  }

  lemma {:induction false} ScanLists(l: Line, now: int, z: seq<Entry>, t: string)
    requires t in Members(Tickets(z)) && HasExpired(l, now, t)
    ensures Lapsed(t, Get(l.job, t, "")) in ExpiredOf(l, now, z)
  {
    assert Tickets(z)[1..] == Tickets(z[1..]);
    if z[0].ticket != t {
      ScanLists(l, now, z[1..], t);
    }
  }

  lemma {:induction false} StillToSettle(ss: seq<State>, es: seq<Event>, i: nat, j: nat, pid: nat, key: string,
                                         x: Lapsed)
    requires Run(ss, es) && i < j <= |es| && ScannedSince(es, i, j, pid, key)
    requires Reconciling(At(ss[i + 1], pid), key) && x in Todo(At(ss[i + 1], pid))
    ensures Reconciling(At(ss[j], pid), key)
    ensures x in Todo(At(ss[j], pid)) || SettledSince(ss, es, i, j, pid, key, x)
    decreases j
  {
    if j > i + 1 {
      StillToSettle(ss, es, i, j - 1, pid, key, x);
      assert StepAt(ss, es, j - 1);
      StaysReconciling(ss[j - 1], es[j - 1], ss[j], pid, key);
      if x in Todo(At(ss[j - 1], pid)) {
        ReconcilingStep(ss, es, j - 1, pid, key, x);
      }
    }
  }

  /**
   Reconcile progress. A process that scanned a line at `i` and runs its own TAKE
   or TURN at `j`, the first since, has settled by then every place that had
   lapsed at the scan: it ran its removal, having read the place's job as gone,
   or its renewal, having read it as coming back.
   */
  lemma EveryLapsedIsSettled(ss: seq<State>, es: seq<Event>, i: nat, j: nat, t: string)
    requires Run(ss, es) && i < j < |es| && es[j].Ran? && (es[j].script.TAKE? || es[j].script.TURN?)
    requires ScannedSince(es, i, j, es[j].pid, es[j].key)
    requires t in LineOf(ss[i], es[j].key).exp && LineOf(ss[i], es[j].key).exp[t] < ss[i].now
    ensures SettledSince(ss, es, i, j, es[j].pid, es[j].key, Lapsed(t, Get(LineOf(ss[i], es[j].key).job, t, "")))
  {
    var pid, key := es[j].pid, es[j].key;
    KeyInvAt(ss, es, i, key);
    assert StepAt(ss, es, i) && StepAt(ss, es, j);
    ScanBegins(ss[i], es[i], ss[i + 1], t);
    StillToSettle(ss, es, i, j, pid, key, Lapsed(t, Get(LineOf(ss[i], key).job, t, "")));
  }

  lemma {:induction false} ReconcilingScanned(ss: seq<State>, es: seq<Event>, j: nat, pid: nat, key: string)
    requires Run(ss, es) && j <= |es| && Reconciling(At(ss[j], pid), key)
    ensures exists i :: 0 <= i < j && ScannedSince(es, i, j, pid, key)
    decreases j
  {
    if j > 0 {
      assert StepAt(ss, es, j - 1);
      if Reconciling(At(ss[j - 1], pid), key) {
        ReconcilingScanned(ss, es, j - 1, pid, key);
        var i :| 0 <= i < j - 1 && ScannedSince(es, i, j - 1, pid, key);
        assert ScannedSince(es, i, j, pid, key);
      } else {
        assert ScannedSince(es, j - 1, j, pid, key);
      }
    }
  }

  /** No place is taken and no turn answered without a scan of the line by the same call first. */
  lemma ScansFirst(ss: seq<State>, es: seq<Event>, j: nat)
    requires Run(ss, es) && j < |es| && es[j].Ran? && (es[j].script.TAKE? || es[j].script.TURN?)
    ensures exists i :: 0 <= i < j && ScannedSince(es, i, j, es[j].pid, es[j].key)
  {
    assert StepAt(ss, es, j);
    ReconcilingScanned(ss, es, j, es[j].pid, es[j].key);
  }
}
