/**
 Enqueueing a request's job under the id its place names, and how that agrees
 with the job the take recorded on the place.
 */
module Dispatch {
  import opened Wrappers
  import L = LeaseLine

  /** BullMQ numbers a job added without an id; those never meet the ids we choose. */
  datatype JobId = Auto(n: nat) | Custom(id: string)

  datatype Outcome =
    | Enqueued(id: JobId)
    | Refused(id: JobId, owner: string)
    | AddFailed

  /** The queue's jobs by id, with the request each carries, and BullMQ's own counter. */
  datatype Queue = Queue(owner: map<JobId, string>, serial: nat)

  function OwnerOf(q: Queue, id: JobId): Option<string> {
    if id in q.owner then Some(q.owner[id]) else None
  }

  /** Adding under a known id gives back the job that is there, as it is. */
  function Add(q: Queue, id: Option<string>, request: string): (Queue, JobId) {
    match id
    case None => (Queue(q.owner[Auto(q.serial) := request], q.serial + 1), Auto(q.serial))
    case Some(s) =>
      if Custom(s) in q.owner then (q, Custom(s)) else (q.(owner := q.owner[Custom(s) := request]), Custom(s))
  }

  /** The id a dispatch enqueues under: the one its place names, if it has a place. */
  function PlaceJob(ticket: Option<string>): Option<string> {
    if ticket.Some? then Some(L.LeaseJobId(ticket.value)) else None
  }

  /** A dispatch whose add goes through. */
  function Dispatched(q: Queue, request: string, ticket: Option<string>): (Queue, Outcome) {
    var (q', id) := Add(q, PlaceJob(ticket), request);
    var owner := OwnerOf(q', id);
    if ticket.Some? && owner.Some? && owner.value != request then (q', Refused(id, owner.value)) else (q', Enqueued(id))
  }

  /**
   A dispatch under a place succeeds exactly when no other request owns the
   place's job id, and then the job under that id is this request's. It throws
   exactly when another does, naming it, and writes nothing. No other job is
   touched either way.
   */
  lemma DispatchNeverDropsARequest(q: Queue, request: string, ticket: string)
    ensures var (q', r) := Dispatched(q, request, Some(ticket));
      var id := Custom(L.LeaseJobId(ticket));
      && (r == Enqueued(id) <==> OwnerOf(q, id) in {None, Some(request)})
      && (r == Enqueued(id) ==> OwnerOf(q', id) == Some(request))
      && (r != Enqueued(id) ==>
            q' == q && r.Refused? && r.id == id && OwnerOf(q, id) == Some(r.owner) && r.owner != request)
      && (forall other :: other != id ==> OwnerOf(q', other) == OwnerOf(q, other))
  {
    var id := Custom(L.LeaseJobId(ticket));
    assert OwnerOf(q, id).Some? ==> id in q.owner;
  }

  /** BullMQ's counter runs ahead of every id it has given. */
  ghost predicate CounterIsAhead(q: Queue) {
    forall n :: n >= q.serial ==> Auto(n) !in q.owner
  }

  /** This request's job is in the queue under `id`, and no other job was added, dropped or given away. */
  ghost predicate Holds(q: Queue, request: string, q': Queue, id: JobId) {
    id in q'.owner && q'.owner[id] == request && q.owner - {id} == q'.owner - {id}
  }

  /**
   What a dispatch comes to. One without a place is enqueued, under an id no job
   had; one with a place under the id made from its ticket, unless that id is
   another request's, and then nothing is written.
   */
  ghost predicate SentRightly(q: Queue, request: string, ticket: Option<string>, q': Queue, r: Outcome) {
    && (r.Enqueued? ==> Holds(q, request, q', r.id))
    && (ticket.None? ==> r.Enqueued? && (CounterIsAhead(q) ==> r.id !in q.owner && CounterIsAhead(q')))
    && (ticket.Some? ==>
          var id := Custom("fsd-lease-" + ticket.value);
          if id in q.owner && q.owner[id] != request then r == Refused(id, q.owner[id]) && q' == q
          else r == Enqueued(id) && q'.serial == q.serial)
  }

  lemma DispatchedRightly(q: Queue, request: string, ticket: Option<string>)
    ensures var (q', r) := Dispatched(q, request, ticket);
      SentRightly(q, request, ticket, q', r)
  {
  }

  class WorkerRunner {
    var queue: Queue
    /** Open event subscriptions, by request. */
    var subscribers: multiset<string>

    constructor ()
      ensures queue == Queue(map[], 0) && subscribers == multiset{}
    {
      queue, subscribers := Queue(map[], 0), multiset{};
    }

    /** `queue.add`, which may also reject. */
    method QueueAdd(id: Option<string>, request: string) returns (job: Option<JobId>)
      modifies `queue
      ensures job == None ==> queue == old(queue)
      ensures job.Some? ==> (queue, job.value) == Add(old(queue), id, request)
    {
      var rejects: bool := *;
      if rejects {
        return None;
      }
      var added := Add(queue, id, request);
      queue := added.0;
      job := Some(added.1);
    }

    /** Subscribe first, then enqueue; a failed or refused dispatch leaves no subscription behind. */
    method Dispatch(request: string, ticket: Option<string>) returns (r: Outcome)
      modifies this
      ensures r == AddFailed ==> queue == old(queue)
      ensures r != AddFailed ==> (queue, r) == Dispatched(old(queue), request, ticket)
      ensures r != AddFailed ==> SentRightly(old(queue), request, ticket, queue, r)
      ensures subscribers == if r.Enqueued? then old(subscribers) + multiset{request} else old(subscribers)
    {
      DispatchedRightly(queue, request, ticket);
      subscribers := subscribers + multiset{request};
      var job := QueueAdd(PlaceJob(ticket), request);
      if job.None? {
        subscribers := subscribers - multiset{request};
        return AddFailed;
      }
      var owner := OwnerOf(queue, job.value);
      if ticket.Some? && owner.Some? && owner.value != request {
        subscribers := subscribers - multiset{request};
        return Refused(job.value, owner.value);
      }
      r := Enqueued(job.value);
    }
  }

  // ----- Takes and dispatches together -----

  datatype Op =
    | Take(key: string, ticket: string, request: string, jobId: Option<string>)
    | Leave(key: string, ticket: string)
    | Send(request: string, place: Option<string>)
    | Finish(id: JobId)

  /** The lines, the queue, and who took each ticket there ever was, under which job. */
  datatype Deployment = Deployment(lines: map<string, L.Line>, queue: Queue, taken: map<string, Op>)

  const START := Deployment(map[], Queue(map[], 0), map[])

  function JobOf(op: Op): string
    requires op.Take?
  {
    if op.jobId.Some? then op.jobId.value else L.LeaseJobId(op.ticket)
  }

  function LineOf(d: Deployment, key: string): L.Line {
    L.Get(d.lines, key, L.EMPTY_LINE)
  }

  function Do(d: Deployment, op: Op, now: int, leaseMs: int): Deployment {
    match op
    case Take(key, ticket, request, _) =>
      var script := L.TAKE(ticket, request, false, leaseMs, JobOf(op));
      d.(lines := d.lines[key := L.Take(LineOf(d, key), now, script).0], taken := d.taken[ticket := op])
    case Leave(key, ticket) =>
      d.(lines := d.lines[key := L.Remove(LineOf(d, key), now, ticket, false).0])
    case Send(request, ticket) => d.(queue := Dispatched(d.queue, request, ticket).0)
    case Finish(id) => d.(queue := d.queue.(owner := d.queue.owner - {id}))
  }

  /** Tickets are fresh, and a request dispatches under a ticket only if its own default take drew it. */
  ghost predicate Orderly(d: Deployment, op: Op) {
    match op
    case Take(_, ticket, _, _) => ticket !in d.taken
    case Send(request, Some(ticket)) =>
      ticket in d.taken && d.taken[ticket].Take? && d.taken[ticket].ticket == ticket
      && d.taken[ticket].request == request && d.taken[ticket].jobId == None
    case _ => true
  }

  ghost predicate Run(ds: seq<Deployment>, ops: seq<Op>, now: seq<int>, leaseMs: int) {
    && |ds| == |ops| + 1 && |now| == |ops| && ds[0] == START
    && forall i :: 0 <= i < |ops| ==> StepAt(ds, ops, now, leaseMs, i)
  }

  ghost predicate StepAt(ds: seq<Deployment>, ops: seq<Op>, now: seq<int>, leaseMs: int, i: nat)
    requires i < |ops| && |ds| == |ops| + 1 && |now| == |ops|
  {
    Orderly(ds[i], ops[i]) && ds[i + 1] == Do(ds[i], ops[i], now[i], leaseMs)
  }

  /** Every job under a place's id is that of the request that took the place; every place records its take's job. */
  ghost predicate Agrees(d: Deployment) {
    && (forall t :: t in d.taken ==> d.taken[t].Take? && d.taken[t].ticket == t)
    && (forall id :: id in d.queue.owner && id.Custom? ==>
          exists t :: t in d.taken && id.id == L.LeaseJobId(t) && d.queue.owner[id] == d.taken[t].request)
    && (forall key :: PlacesAgree(d, key))
  }

  ghost predicate PlacesAgree(d: Deployment, key: string) {
    && L.Wf(LineOf(d, key))
    && (forall t :: L.InLine(LineOf(d, key), t) ==> PlaceAgrees(d, key, t))
  }

  ghost predicate PlaceAgrees(d: Deployment, key: string, t: string) {
    && t in d.taken && d.taken[t].Take? && d.taken[t].key == key
    && L.Get(LineOf(d, key).job, t, "") == JobOf(d.taken[t])
    && L.Get(LineOf(d, key).req, t, "") == d.taken[t].request
  }

  lemma LeaseJobIdInjective(t: string, u: string)
    requires L.LeaseJobId(t) == L.LeaseJobId(u)
    ensures t == u
  {
    var n := |L.LEASE_JOB_PREFIX|;
    assert L.LeaseJobId(t)[n..] == t && L.LeaseJobId(u)[n..] == u;
  }

  lemma PlacesAgreeStep(d: Deployment, op: Op, now: int, leaseMs: int, key: string)
    requires PlacesAgree(d, key) && Orderly(d, op)
    ensures PlacesAgree(Do(d, op, now, leaseMs), key)
  {
    var l, d' := LineOf(d, key), Do(d, op, now, leaseMs);
    if (op.Take? || op.Leave?) && op.key == key {
      var script :=
        if op.Take? then L.TAKE(op.ticket, op.request, false, leaseMs, JobOf(op)) else L.REMOVE(op.ticket, false);
      assert LineOf(d', key) == L.Exec(l, now, script).0;
      L.ScriptsKeepWf(l, now, script);
      forall t | L.InLine(LineOf(d', key), t) ensures PlaceAgrees(d', key, t) {
        if !(op.Take? && op.ticket == t) {
          L.ScriptPlace(l, now, script, t);
          assert PlaceAgrees(d, key, t);
        }
      }
    } else {
      assert LineOf(d', key) == l;
      forall t | L.InLine(l, t) ensures PlaceAgrees(d', key, t) {
        assert PlaceAgrees(d, key, t);
      }
    }
  }

  lemma AgreesStep(d: Deployment, op: Op, now: int, leaseMs: int)
    requires Agrees(d) && Orderly(d, op)
    ensures Agrees(Do(d, op, now, leaseMs))
  {
    var d' := Do(d, op, now, leaseMs);
    forall key ensures PlacesAgree(d', key) {
      PlacesAgreeStep(d, op, now, leaseMs, key);
    }
    forall id | id in d'.queue.owner && id.Custom?
      ensures exists t :: t in d'.taken && id.id == L.LeaseJobId(t) && d'.queue.owner[id] == d'.taken[t].request
    {
      if id in d.queue.owner && d'.queue.owner[id] == d.queue.owner[id] {
        var t :| t in d.taken && id.id == L.LeaseJobId(t) && d.queue.owner[id] == d.taken[t].request;
        assert t in d'.taken && d'.taken[t] == d.taken[t];
      } else {
        assert op.Send? && op.place.Some?;
        assert op.place.value in d'.taken;
      }
    }
  }

  lemma {:induction false} AgreesHolds(ds: seq<Deployment>, ops: seq<Op>, now: seq<int>, leaseMs: int, i: nat)
    requires Run(ds, ops, now, leaseMs) && i <= |ops|
    ensures Agrees(ds[i])
  {
    if i > 0 {
      AgreesHolds(ds, ops, now, leaseMs, i - 1);
      assert StepAt(ds, ops, now, leaseMs, i - 1);
      AgreesStep(ds[i - 1], ops[i - 1], now[i - 1], leaseMs);
    }
  }

  /**
   Place and job agree. Over any run of fresh takes, departures, dispatches and
   finished jobs, a request's dispatch under its place is never refused, and
   while the place stands the job id recorded on it is the one enqueued under.
   */
  lemma PlaceAndJobAgree(ds: seq<Deployment>, ops: seq<Op>, now: seq<int>, leaseMs: int, i: nat)
    requires Run(ds, ops, now, leaseMs) && i < |ops| && ops[i].Send? && ops[i].place.Some?
    ensures var t := ops[i].place.value;
      var (q', r) := Dispatched(ds[i].queue, ops[i].request, Some(t));
      && r == Enqueued(Custom(L.LeaseJobId(t)))
      && OwnerOf(q', r.id) == Some(ops[i].request)
      && forall key :: L.InLine(LineOf(ds[i], key), t) ==>
           && Custom(L.Get(LineOf(ds[i], key).job, t, "")) == r.id
           && L.Get(LineOf(ds[i], key).req, t, "") == ops[i].request
  {
    AgreesHolds(ds, ops, now, leaseMs, i);
    assert StepAt(ds, ops, now, leaseMs, i);
    var d, t := ds[i], ops[i].place.value;
    var id := Custom(L.LeaseJobId(t));
    if id in d.queue.owner {
      var u :| u in d.taken && id.id == L.LeaseJobId(u) && d.queue.owner[id] == d.taken[u].request;
      LeaseJobIdInjective(t, u);
    }
    DispatchNeverDropsARequest(d.queue, ops[i].request, t);
    forall key | L.InLine(LineOf(d, key), t)
      ensures Custom(L.Get(LineOf(d, key).job, t, "")) == id && L.Get(LineOf(d, key).req, t, "") == ops[i].request
    {
      assert PlacesAgree(d, key) && PlaceAgrees(d, key, t);
    }
  }

  /** Whoever took a ticket once is who took it for good. */
  lemma {:induction false} TakenStays(ds: seq<Deployment>, ops: seq<Op>, now: seq<int>, leaseMs: int, i: nat, j: nat,
                                      t: string)
    requires Run(ds, ops, now, leaseMs) && i <= j <= |ops| && t in ds[i].taken
    ensures t in ds[j].taken && ds[j].taken[t] == ds[i].taken[t]
    decreases j
  {
    if i < j {
      TakenStays(ds, ops, now, leaseMs, i, j - 1, t);
      assert StepAt(ds, ops, now, leaseMs, j - 1);
    }
  }

  lemma {:induction false} SerialGrows(ds: seq<Deployment>, ops: seq<Op>, now: seq<int>, leaseMs: int, i: nat, j: nat)
    requires Run(ds, ops, now, leaseMs) && i <= j <= |ops|
    ensures ds[i].queue.serial <= ds[j].queue.serial
    decreases j
  {
    if i < j {
      SerialGrows(ds, ops, now, leaseMs, i, j - 1);
      assert StepAt(ds, ops, now, leaseMs, j - 1);
    }
  }

  lemma {:induction false} CounterStaysAhead(ds: seq<Deployment>, ops: seq<Op>, now: seq<int>, leaseMs: int, i: nat)
    requires Run(ds, ops, now, leaseMs) && i <= |ops|
    ensures CounterIsAhead(ds[i].queue)
  {
    if i > 0 {
      CounterStaysAhead(ds, ops, now, leaseMs, i - 1);
      assert StepAt(ds, ops, now, leaseMs, i - 1);
    }
  }

  /**
   Every dispatch of a run leaves its request in the queue and every other job as
   it was: without a place under an id no job had, with one under the place's id.
   */
  lemma SendsItsJob(ds: seq<Deployment>, ops: seq<Op>, now: seq<int>, leaseMs: int, i: nat)
    requires Run(ds, ops, now, leaseMs) && i < |ops| && ops[i].Send?
    ensures var before, after := ds[i].queue.owner, ds[i + 1].queue.owner;
      if ops[i].place.Some? then
        after == before[Custom("fsd-lease-" + ops[i].place.value) := ops[i].request]
      else
        exists n :: Auto(n) !in before && after == before[Auto(n) := ops[i].request]
  {
    assert StepAt(ds, ops, now, leaseMs, i);
    CounterStaysAhead(ds, ops, now, leaseMs, i);
    if ops[i].place.Some? {
      PlaceAndJobAgree(ds, ops, now, leaseMs, i);
    } else {
      assert Auto(ds[i].queue.serial) !in ds[i].queue.owner;
    }
  }

  /** The id a step's dispatch is given. */
  function SentUnder(d: Deployment, op: Op): JobId
    requires op.Send?
  {
    Dispatched(d.queue, op.request, op.place).1.id
  }

  /**
   No two requests share a job: two dispatches of a run, with or without places, are
   given one id only if they are one request's under one ticket.
   */
  lemma NoSharedJob(ds: seq<Deployment>, ops: seq<Op>, now: seq<int>, leaseMs: int, i: nat, j: nat)
    requires Run(ds, ops, now, leaseMs) && i <= j < |ops| && ops[i].Send? && ops[j].Send?
    requires SentUnder(ds[i], ops[i]) == SentUnder(ds[j], ops[j])
    ensures ops[i].request == ops[j].request && ops[i].place == ops[j].place
    ensures i < j ==> ops[i].place.Some?
  {
    assert StepAt(ds, ops, now, leaseMs, i) && StepAt(ds, ops, now, leaseMs, j);
    if i < j {
      SerialGrows(ds, ops, now, leaseMs, i + 1, j);
    }
    if ops[i].place.Some? && ops[j].place.Some? {
      LeaseJobIdInjective(ops[i].place.value, ops[j].place.value);
      TakenStays(ds, ops, now, leaseMs, i, j, ops[i].place.value);
    }
  }
}
