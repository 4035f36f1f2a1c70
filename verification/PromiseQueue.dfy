/** The bounded-concurrency task scheduler of src/models/promise_queue.ts.

    A job is the closure pushed by `add`. Starting it either leaves it awaiting its task or, when
    its signal has already aborted or the task throws at once, rejects it inside the same turn, in
    which case the `finally` block re-enters the scheduler before the starter has returned. The
    events between turns are the public methods: add, a task finishing, an abort, the interval
    tick, stop, continue and the concurrency setter. */
module PromiseQueue {
  import opened Wrappers
  import opened PriorityQueue
  import opened SeqSums

  datatype Job = Job(id: nat, throwsAtOnce: bool)

  datatype Outcome = Resolved | Rejected

  datatype Settlement = Settlement(id: nat, outcome: Outcome)

  datatype SchedulerError = LessThanOneJob

  ghost predicate Describes(throwing: set<nat>, heap: seq<Node<Job>>) {
    forall n :: n in heap ==> (n.value.throwsAtOnce <==> n.value.id in throwing)
  }

  lemma FewerDescribed(throwing: set<nat>, heap: seq<Node<Job>>, more: seq<Node<Job>>)
    requires Describes(throwing, more) && multiset(heap) <= multiset(more)
    ensures Describes(throwing, heap)
  {
    forall n | n in heap ensures n in more {
      assert n in multiset(heap);
      assert n in multiset(more);
    }
  }

  lemma OneMoreDescribed(throwing: set<nat>, before: seq<Node<Job>>, after: seq<Node<Job>>, node: Node<Job>)
    requires Describes(throwing, before) && multiset(after) == multiset(before) + multiset{node}
    requires node.value.id !in throwing && forall n :: n in before ==> n.value.id != node.value.id
    ensures Describes(throwing + if node.value.throwsAtOnce then {node.value.id} else {}, after)
  {
    forall n | n in after ensures n == node || n in before {
      assert n in multiset(after);
      assert n in multiset(before) || n == node;
    }
  }

  function IdOf(): Node<Job> -> nat { (n: Node<Job>) => n.value.id }

  function JobIds(heap: seq<Node<Job>>): seq<nat> { Map(heap, IdOf()) }

  function SettlementId(): Settlement -> nat { (s: Settlement) => s.id }

  function SettledIds(log: seq<Settlement>): seq<nat> { Map(log, SettlementId()) }

  /** No job that was started was outranked by one that is still waiting. */
  ghost predicate NoOvertaking(before: multiset<Node<Job>>, after: multiset<Node<Job>>) {
    && after <= before
    && forall waiting, started :: waiting in after && before[started] > after[started] ==> !Greater(waiting, started)
  }

  lemma NoOvertakingTrans(a: multiset<Node<Job>>, b: multiset<Node<Job>>, c: multiset<Node<Job>>)
    requires NoOvertaking(a, b) && NoOvertaking(b, c)
    ensures NoOvertaking(a, c)
  {
    forall waiting, started | waiting in c && a[started] > c[started] ensures !Greater(waiting, started) {
      assert a[started] > b[started] || b[started] > c[started];
    }
  }

  lemma JobIdsAdd(before: seq<Node<Job>>, after: seq<Node<Job>>, n: Node<Job>)
    requires multiset(after) == multiset(before) + multiset{n}
    ensures multiset(JobIds(after)) == multiset(JobIds(before)) + multiset{n.value.id}
  {
    MapPermutation(after, before + [n], IdOf());
    assert JobIds(before + [n]) == JobIds(before) + [n.value.id];
  }

  lemma OneMoreAccounted(before: seq<Node<Job>>, after: seq<Node<Job>>, n: Node<Job>, others: multiset<nat>, added: set<nat>)
    requires multiset(after) == multiset(before) + multiset{n} && n.value.id !in added
    requires multiset(JobIds(before)) + others == multiset(added)
    ensures multiset(JobIds(after)) + others == multiset(added + {n.value.id})
  {
    JobIdsAdd(before, after, n);
    assert multiset(added + {n.value.id}) == multiset(added) + multiset{n.value.id};
  }

  lemma OneLess(before: seq<Node<Job>>, after: seq<Node<Job>>, n: Node<Job>)
    requires Greatest(n, multiset(before)) && multiset(after) == multiset(before) - multiset{n}
    ensures multiset(JobIds(before)) == multiset(JobIds(after)) + multiset{n.value.id}
    ensures n in before && multiset(after) <= multiset(before) && NoOvertaking(multiset(before), multiset(after))
  {
    assert multiset(before) == multiset(after) + multiset{n};
    JobIdsAdd(after, before, n);
  }

  lemma SettledPush(log: seq<Settlement>, s: Settlement)
    ensures multiset(SettledIds(log + [s])) == multiset(SettledIds(log)) + multiset{s.id}
  {
    assert SettledIds(log + [s]) == SettledIds(log) + [s.id];
  }

  /** A job in hand runs nowhere yet. */
  lemma StartsRunning(waiting: multiset<nat>, running: set<nat>, done: multiset<nat>, id: nat, added: set<nat>)
    requires waiting + multiset(running) + done + multiset{id} == multiset(added)
    ensures id !in running && waiting + multiset(running + {id}) + done + multiset{} == multiset(added)
  {
    assert multiset(added)[id] <= 1;
    assert multiset(running + {id}) == multiset(running) + multiset{id};
  }

  class PromiseQueue {
    const queue: PriorityQueue<Job>
    var jobsRunning: int
    var concurrent: int
    var isPaused: bool
    /** Jobs that incremented `jobsRunning` and whose promise is still pending. */
    var running: set<nat>
    /** Promises settled so far, in order. */
    var settled: seq<Settlement>
    /** Jobs whose abort signal has fired: starting one of them throws. */
    var aborted: set<nat>
    var added: set<nat>
    var nextId: nat
    /** Tasks that throw before their first await. */
    ghost var throwing: set<nat>

    /** Every task ever added is in exactly one place, once: waiting, running or settled. The
        multiset `inHand` holds the jobs popped but not yet started. */
    ghost predicate Accounted(inHand: multiset<nat>)
      reads this, queue
    {
      multiset(JobIds(queue.heap)) + multiset(running) + multiset(SettledIds(settled)) + inHand
      == multiset(added)
    }

    ghost predicate Valid()
      reads this, queue
    {
      && queue.Valid() && concurrent >= 1 && jobsRunning == |running| && Accounted(multiset{})
      && (forall id :: id in added ==> id < nextId)
      && Described()
    }

    ghost predicate Described()
      reads this, queue
    {
      throwing <= added && Describes(throwing, queue.heap)
    }

    /** Since `before` and `ran`, only tasks that throw at once or were aborted have settled, rejected,
        and only other tasks were started. */
    ghost predicate StartedOnly(before: seq<Settlement>, ran: set<nat>)
      reads this
    {
      && before <= settled && ran <= running
      && (forall k :: |before| <= k < |settled| ==> FailsAtOnce(settled[k].id) && settled[k].outcome == Rejected)
      && (forall id :: id in running && id !in ran ==> !FailsAtOnce(id))
    }

    ghost predicate FailsAtOnce(id: nat)
      reads this
    {
      id in throwing || id in aborted
    }

    ghost predicate WithinLimit()
      reads this
    {
      jobsRunning <= concurrent
    }

    /** No slot is free while a task waits. */
    ghost predicate Saturated()
      reads this, queue
    {
      isPaused || queue.heap == [] || jobsRunning >= concurrent
    }

    constructor ()
      ensures Valid() && WithinLimit() && Saturated() && !isPaused
      ensures added == {} && settled == [] && fresh(queue) && queue.heap == [] && jobsRunning == 0 && concurrent == 1
    {
      queue := new PriorityQueue<Job>();
      jobsRunning, concurrent, isPaused := 0, 1, false;
      running, settled, aborted, nextId := {}, [], {}, 0;
      added, throwing := {}, {};
    }

    /** `#next`: called once a job has settled, while `jobsRunning` still counts it. */
    method Next()
      requires queue.Valid() && concurrent >= 1 && Accounted(multiset{}) && Described()
      requires forall id :: id in added ==> id < nextId
      requires jobsRunning == |running| + 1
      modifies this, queue
      ensures Valid() && isPaused == old(isPaused) && concurrent == old(concurrent)
      ensures added == old(added) && nextId == old(nextId) && aborted == old(aborted) && throwing == old(throwing)
      ensures |queue.heap| <= |old(queue.heap)|
      ensures jobsRunning <= old(jobsRunning) - 1 || jobsRunning <= concurrent
      ensures StartedOnly(old(settled), old(running))
      ensures NoOvertaking(multiset(old(queue.heap)), multiset(queue.heap))
      ensures old(jobsRunning) >= concurrent || old(queue.heap) == [] ==> Saturated()
      decreases |queue.heap|, 1
    {
      jobsRunning := jobsRunning - 1;
      var _ := TryToStartNextJob();
    }

    /** Pops the next job off the non-empty queue; until it starts it is in nobody's books. */
    method Take() returns (job: Job)
      requires Valid() && queue.heap != []
      modifies queue
      ensures queue.Valid() && Accounted(multiset{job.id}) && Described()
      ensures job.throwsAtOnce <==> job.id in throwing
      ensures |queue.heap| == |old(queue.heap)| - 1
      ensures NoOvertaking(multiset(old(queue.heap)), multiset(queue.heap))
    {
      ghost var root, before := queue.heap[0], queue.heap;
      var popped := queue.Pop();
      OneLess(before, queue.heap, root);
      job := popped.value;
      FewerDescribed(throwing, queue.heap, before);
    }

    /** Starts at most one waiting job, plus whatever the jobs that fail at once let in after it.
        Answers false, changing nothing, exactly when no job may start. */
    method TryToStartNextJob() returns (started: bool)
      requires Valid()
      modifies this, queue
      ensures Valid() && isPaused == old(isPaused) && concurrent == old(concurrent)
      ensures added == old(added) && nextId == old(nextId) && aborted == old(aborted) && throwing == old(throwing)
      ensures started <==> !old(Saturated())
      ensures started ==> |queue.heap| < |old(queue.heap)|
      ensures !started ==> queue.heap == old(queue.heap) && running == old(running) && settled == old(settled)
      ensures jobsRunning <= old(jobsRunning) || jobsRunning <= concurrent
      ensures StartedOnly(old(settled), old(running))
      ensures NoOvertaking(multiset(old(queue.heap)), multiset(queue.heap))
      ensures old(jobsRunning) >= concurrent - 1 || old(queue.heap) == [] ==> Saturated()
      decreases |queue.heap|, 0
    {
      if isPaused {
        return false;
      }
      var empty := queue.IsEmpty();
      if empty {
        return false;
      }
      if jobsRunning < concurrent {
        var job := Take();
        ghost var left := multiset(queue.heap);
        StartJob(job);
        NoOvertakingTrans(multiset(old(queue.heap)), left, multiset(queue.heap));
        return true;
      }
      return false;
    }

    /** The `catch` and the `finally` of a job that never awaited. */
    method RejectAtOnce(job: Job)
      requires queue.Valid() && concurrent >= 1 && jobsRunning == |running| + 1 && Described()
      requires FailsAtOnce(job.id)
      requires (forall id :: id in added ==> id < nextId) && Accounted(multiset{job.id})
      modifies this, queue
      ensures Valid() && isPaused == old(isPaused) && concurrent == old(concurrent)
      ensures added == old(added) && nextId == old(nextId) && aborted == old(aborted) && throwing == old(throwing)
      ensures |queue.heap| <= |old(queue.heap)|
      ensures jobsRunning <= old(jobsRunning) - 1 || jobsRunning <= concurrent
      ensures StartedOnly(old(settled), old(running))
      ensures NoOvertaking(multiset(old(queue.heap)), multiset(queue.heap))
      ensures old(jobsRunning) >= concurrent || old(queue.heap) == [] ==> Saturated()
      decreases |queue.heap|, 2
    {
      SettledPush(settled, Settlement(job.id, Rejected));
      settled := settled + [Settlement(job.id, Rejected)];
      Next();
    }

    /** The job closure up to its first suspension, or through its `finally` if it throws at once. */
    method StartJob(job: Job)
      requires queue.Valid() && concurrent >= 1 && jobsRunning == |running| && Described()
      requires job.throwsAtOnce <==> job.id in throwing
      requires (forall id :: id in added ==> id < nextId) && Accounted(multiset{job.id}) && jobsRunning < concurrent && !isPaused
      modifies this, queue
      ensures Valid() && isPaused == old(isPaused) && concurrent == old(concurrent)
      ensures added == old(added) && nextId == old(nextId) && aborted == old(aborted) && throwing == old(throwing)
      ensures |queue.heap| <= |old(queue.heap)|
      ensures jobsRunning <= concurrent
      ensures StartedOnly(old(settled), old(running))
      ensures NoOvertaking(multiset(old(queue.heap)), multiset(queue.heap))
      ensures old(jobsRunning) >= concurrent - 1 ==> Saturated()
      decreases |queue.heap|, 3
    {
      jobsRunning := jobsRunning + 1;
      if job.id in aborted || job.throwsAtOnce {
        RejectAtOnce(job);
      } else {
        StartsRunning(multiset(JobIds(queue.heap)), running, multiset(SettledIds(settled)), job.id, added);
        running := running + {job.id};
      }
    }

    /** Starts jobs until none may start. */
    method ProcessQueue()
      requires Valid()
      modifies this, queue
      ensures Valid() && Saturated() && isPaused == old(isPaused) && concurrent == old(concurrent)
      ensures added == old(added) && nextId == old(nextId) && aborted == old(aborted) && throwing == old(throwing)
      ensures old(WithinLimit()) ==> WithinLimit()
      ensures StartedOnly(old(settled), old(running))
      ensures NoOvertaking(multiset(old(queue.heap)), multiset(queue.heap))
    {
      var more := true;
      while more
        invariant Valid() && isPaused == old(isPaused) && concurrent == old(concurrent)
        invariant added == old(added) && nextId == old(nextId) && aborted == old(aborted) && throwing == old(throwing)
        invariant old(WithinLimit()) ==> WithinLimit()
        invariant StartedOnly(old(settled), old(running))
        invariant NoOvertaking(multiset(old(queue.heap)), multiset(queue.heap))
        invariant !more ==> Saturated()
        decreases |queue.heap|, more
      {
        ghost var before := multiset(queue.heap);
        more := TryToStartNextJob();
        NoOvertakingTrans(multiset(old(queue.heap)), before, multiset(queue.heap));
      }
    }

    lemma WaitingWereAdded()
      requires Valid()
      ensures forall n :: n in queue.heap ==> n.value.id < nextId
    {
      var ids: seq<nat> := JobIds(queue.heap);
      forall k | 0 <= k < |queue.heap| ensures queue.heap[k].value.id < nextId {
        assert ids[k] == queue.heap[k].value.id && ids[k] in multiset(ids);
        assert ids[k] in multiset(added);
      }
    }

    /** Queues one task and starts whatever may start. */
    method Add(throwsAtOnce: bool, priority: real) returns (id: nat)
      requires Valid()
      modifies this, queue
      ensures Valid() && Saturated() && isPaused == old(isPaused) && concurrent == old(concurrent)
      ensures id !in old(added) && added == old(added) + {id}
      ensures throwing == old(throwing) + if throwsAtOnce then {id} else {}
      ensures NoOvertaking(multiset(old(queue.heap)) + multiset{Node(Job(id, throwsAtOnce), priority)}, multiset(queue.heap))
      ensures old(WithinLimit()) ==> WithinLimit()
      ensures StartedOnly(old(settled), old(running))
    {
      id := Enqueue(throwsAtOnce, priority);
      ProcessQueue();
    }

    /** The new task joins the waiting ones. */
    method Enqueue(throwsAtOnce: bool, priority: real) returns (id: nat)
      requires Valid()
      modifies this`nextId, this`added, this`throwing, queue
      ensures Valid() && id !in old(added) && added == old(added) + {id}
      ensures throwing == old(throwing) + if throwsAtOnce then {id} else {}
      ensures multiset(queue.heap) == multiset(old(queue.heap)) + multiset{Node(Job(id, throwsAtOnce), priority)}
    {
      id := nextId;
      var node := Node(Job(id, throwsAtOnce), priority);
      ghost var before := queue.heap;
      WaitingWereAdded();
      queue.Push(node);
      OneMoreDescribed(throwing, before, queue.heap, node);
      OneMoreAccounted(before, queue.heap, node, multiset(running) + multiset(SettledIds(settled)), added);
      nextId := nextId + 1;
      added := added + {id};
      throwing := throwing + if throwsAtOnce then {id} else {};
    }

    /** A running task's promise resolves or rejects: settle it, free its slot, start the next. */
    method Finish(id: nat, outcome: Outcome)
      requires Valid() && id in running
      modifies this, queue
      ensures Valid() && isPaused == old(isPaused) && concurrent == old(concurrent) && added == old(added)
      ensures throwing == old(throwing) && aborted == old(aborted)
      ensures StartedOnly(old(settled) + [Settlement(id, outcome)], old(running) - {id}) && id !in running
      ensures old(WithinLimit()) ==> WithinLimit()
      ensures old(Saturated()) ==> Saturated()
      ensures NoOvertaking(multiset(old(queue.heap)), multiset(queue.heap))
    {
      SettledPush(settled, Settlement(id, outcome));
      settled := settled + [Settlement(id, outcome)];
      assert multiset(running) == multiset(running - {id}) + multiset{id};
      running := running - {id};
      Next();
      assert id !in running by {
        assert settled[|old(settled)|] == Settlement(id, outcome);
        assert SettledIds(settled)[|old(settled)|] == id;
        assert id in multiset(SettledIds(settled));
        assert multiset(added)[id] <= 1;
      }
    }

    /** The abort signal of a task fires. Nothing runs in this turn. */
    method Abort(id: nat)
      requires Valid()
      modifies this`aborted
      ensures Valid() && aborted == old(aborted) + {id}
    {
      aborted := aborted + {id};
    }

    /** The one-second interval fires. */
    method Tick()
      requires Valid()
      modifies this, queue
      ensures Valid() && Saturated() && isPaused == old(isPaused) && concurrent == old(concurrent)
      ensures old(WithinLimit()) ==> WithinLimit()
      ensures StartedOnly(old(settled), old(running)) && added == old(added)
      ensures NoOvertaking(multiset(old(queue.heap)), multiset(queue.heap))
    {
      if !isPaused {
        ProcessQueue();
      }
    }

    method Stop()
      requires Valid()
      modifies this`isPaused
      ensures Valid() && isPaused && Saturated() && settled == old(settled) && added == old(added)
    {
      isPaused := true;
    }

    method Continue()
      requires Valid()
      modifies this, queue
      ensures Valid() && Saturated() && !isPaused && concurrent == old(concurrent)
      ensures old(WithinLimit()) ==> WithinLimit()
      ensures StartedOnly(old(settled), old(running)) && added == old(added)
      ensures NoOvertaking(multiset(old(queue.heap)), multiset(queue.heap))
    {
      isPaused := false;
      ProcessQueue();
    }

    /** The concurrency setter starts nothing: lowering the limit can leave more jobs running than
        allowed until some finish, raising it can leave slots free until the next add or tick. */
    method SetConcurrent(value: int) returns (r: Result<(), SchedulerError>)
      requires Valid()
      modifies this`concurrent
      ensures Valid()
      ensures r.Err? <==> value < 1
      ensures concurrent == if value < 1 then old(concurrent) else value
      ensures value <= old(concurrent) && old(Saturated()) ==> Saturated()
      ensures value >= old(concurrent) && old(WithinLimit()) ==> WithinLimit()
    {
      if value < 1 {
        return Err(LessThanOneJob);
      }
      concurrent := value;
      r := Ok(());
    }
  }

  // ----- every reachable state -----

  /** What can happen to a scheduler between two turns. */
  datatype Happening =
    | AddTask(throwsAtOnce: bool, priority: real)
    | TaskEnds(id: nat, outcome: Outcome)
    | SignalFires(id: nat)
    | IntervalFires
    | StopCalled
    | ContinueCalled
    | ConcurrentSet(value: int)

  /** The limit is set before anything else happens, or never. */
  predicate FixedConcurrency(events: seq<Happening>) {
    forall k :: 1 <= k < |events| ==> !events[k].ConcurrentSet?
  }

  /** One event; a task that is not running cannot end. */
  method Happen(q: PromiseQueue, e: Happening)
    requires q.Valid()
    modifies q, q.queue
    ensures q.Valid() && old(q.settled) <= q.settled && old(q.added) <= q.added
    ensures !e.ConcurrentSet? && old(q.WithinLimit()) ==> q.WithinLimit()
    ensures !e.ConcurrentSet? && old(q.Saturated()) ==> q.Saturated()
    ensures e.ConcurrentSet? && old(q.queue.heap == [] && q.jobsRunning == 0) ==> q.WithinLimit() && q.Saturated()
  {
    match e
    case AddTask(throwsAtOnce, priority) => var _ := q.Add(throwsAtOnce, priority);
    case TaskEnds(id, outcome) => if id in q.running { q.Finish(id, outcome); }
    case SignalFires(id) => q.Abort(id);
    case IntervalFires => q.Tick();
    case StopCalled => q.Stop();
    case ContinueCalled => q.Continue();
    case ConcurrentSet(value) => var _ := q.SetConcurrent(value);
  }

  /** Any run of a new scheduler, whatever happens in whatever order. At its end every task ever added is
      queued, running or settled, once. If the limit is fixed it is kept, and no slot is free while a task
      waits; if moreover nothing runs and the scheduler is not paused, everything has settled once. */
  method Drive(events: seq<Happening>) returns (q: PromiseQueue)
    ensures fresh(q) && fresh(q.queue) && q.Valid()
    ensures FixedConcurrency(events) ==> q.WithinLimit() && q.Saturated()
    ensures Distinct(SettledIds(q.settled))
    ensures forall id: nat :: id in q.added <==> id in q.running || id in JobIds(q.queue.heap) || id in SettledIds(q.settled)
    ensures FixedConcurrency(events) && !q.isPaused && q.jobsRunning == 0 ==> multiset(SettledIds(q.settled)) == multiset(q.added)
  {
    q := new PromiseQueue();
    for k := 0 to |events|
      invariant fresh(q) && fresh(q.queue) && q.Valid()
      invariant k == 0 ==> q.queue.heap == [] && q.jobsRunning == 0
      invariant FixedConcurrency(events) ==> q.WithinLimit() && q.Saturated()
    {
      Happen(q, events[k]);
    }
    forall id: nat
      ensures id in q.added <==> id in q.running || id in JobIds(q.queue.heap) || id in SettledIds(q.settled)
      ensures Distinct(SettledIds(q.settled))
    {
      ExactlyOnePlace(q, id);
    }
    ExactlyOnePlace(q, 0);
    if q.Saturated() && !q.isPaused && q.jobsRunning == 0 {
      IdleMeansAllSettled(q);
    }
  }

  /** A saturated, unpaused scheduler that runs nothing has nothing left to run: every task ever
      added has settled, exactly once. */
  lemma IdleMeansAllSettled(q: PromiseQueue)
    requires q.Valid() && q.Saturated() && !q.isPaused && q.jobsRunning == 0
    ensures multiset(SettledIds(q.settled)) == multiset(q.added)
  {
    assert q.running == {};
  }

  /** A task is in exactly one place and never settles twice. */
  lemma ExactlyOnePlace(q: PromiseQueue, id: nat)
    requires q.Valid()
    ensures id in q.running ==> id !in JobIds(q.queue.heap) && id !in SettledIds(q.settled)
    ensures id in JobIds(q.queue.heap) ==> id !in SettledIds(q.settled)
    ensures Distinct(JobIds(q.queue.heap)) && Distinct(SettledIds(q.settled))
    ensures id in q.added <==> id in q.running || id in JobIds(q.queue.heap) || id in SettledIds(q.settled)
  {
    var waiting: seq<nat>, done: seq<nat> := JobIds(q.queue.heap), SettledIds(q.settled);
    assert forall x :: multiset(waiting)[x] + multiset(q.running)[x] + multiset(done)[x] == multiset(q.added)[x] <= 1;
    DistinctFromCounts(waiting);
    DistinctFromCounts(done);
    assert id in waiting <==> id in multiset(waiting);
    assert id in done <==> id in multiset(done);
    assert id in q.running <==> id in multiset(q.running);
    assert id in q.added <==> id in multiset(q.added);
  }
}
