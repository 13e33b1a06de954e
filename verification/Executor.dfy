/** The worker pool and its job queue (executor/executor.cc). */
module Executors {
  import opened StateVectors

  type Worker = nat

  /** A job object. */
  type Job = nat

  /** `Asleep` waits on the condition variable un-notified; `Awake` is about to look at the queue. */
  datatype Phase = Asleep | Awake | Busy(job: Job)

  /** `submitted` and `started` record jobs in order. */
  datatype Pool = Pool(queue: seq<Job>, workers: map<Worker, Phase>, submitted: seq<Job>, started: seq<Job>)

  datatype Event =
    | Execute(job: Job, woken: Option<Worker>)
    | Look(w: Worker)
    | Finish(w: Worker)
    | SpuriousWakeup(w: Worker)

  ghost predicate SomeAsleep(p: Pool) {
    exists w :: w in p.workers && p.workers[w].Asleep?
  }

  /** notify_one wakes one sleeping worker, whichever, and nobody if none sleeps. */
  ghost predicate Enabled(p: Pool, e: Event) {
    match e
    case Execute(_, woken) =>
      if p.queue == [] && SomeAsleep(p)
      then woken.Some? && woken.value in p.workers && p.workers[woken.value].Asleep?
      else woken.None?
    case Look(w) => w in p.workers && p.workers[w].Awake?
    case Finish(w) => w in p.workers && p.workers[w].Busy?
    case SpuriousWakeup(w) => w in p.workers && p.workers[w].Asleep?
  }

  function After(p: Pool, e: Event): Pool {
    match e
    case Execute(job, woken) =>
      p.(queue := p.queue + [job], submitted := p.submitted + [job],
         workers := if woken.Some? then p.workers[woken.value := Awake] else p.workers)
    case Look(w) =>
      if p.queue == [] then p.(workers := p.workers[w := Asleep])
      else p.(queue := p.queue[1..], started := p.started + [p.queue[0]], workers := p.workers[w := Busy(p.queue[0])])
    case Finish(w) => p.(workers := p.workers[w := Awake])
    case SpuriousWakeup(w) => p.(workers := p.workers[w := Awake])
  }

  ghost predicate Step(p: Pool, e: Event, q: Pool) {
    Enabled(p, e) && q == After(p, e)
  }

  ghost predicate Reaches(p: Pool, run: seq<Event>, q: Pool)
    decreases |run|
  {
    if run == [] then p == q
    else
      var e := run[|run| - 1];
      exists m :: Step(m, e, q) && Reaches(p, run[..|run| - 1], m)
  }

  /** Someone is awake or busy, and will look at the queue again. */
  ghost predicate SomeoneWillLook(p: Pool) {
    exists w :: w in p.workers && !p.workers[w].Asleep?
  }

  ghost predicate PoolOk(p: Pool) {
    && p.workers.Keys != {}
    && p.started + p.queue == p.submitted
    && (p.queue != [] ==> SomeoneWillLook(p))
  }

  lemma StepKeepsPoolOk(p: Pool, e: Event)
    requires PoolOk(p) && Enabled(p, e)
    ensures PoolOk(After(p, e))
  {
    var q := After(p, e);
    match e {
      case Execute(job, woken) =>
        assert p.started + (p.queue + [job]) == p.submitted + [job];
        if woken.Some? {
          assert !q.workers[woken.value].Asleep?;
        } else {
          var w :| w in p.workers && !p.workers[w].Asleep?;
          assert !q.workers[w].Asleep?;
        }
      case Look(w) =>
        if p.queue != [] {
          assert q.workers[w].Busy?;
          assert p.started + p.queue == p.started + [p.queue[0]] + p.queue[1..];
        }
      case Finish(w) => assert q.workers[w].Awake?;
      case SpuriousWakeup(w) => assert q.workers[w].Awake?;
    }
  }

  /**
   * With any number of workers and any interleaving, a waiting job is never left to workers that all sleep
   * un-notified, although a job added to a non-empty queue notifies nobody; and jobs start once each, in the
   * order of submission.
   */
  lemma {:induction false} NoJobIsForgotten(p: Pool, run: seq<Event>, q: Pool)
    requires PoolOk(p) && Reaches(p, run, q)
    ensures q.queue != [] ==> SomeoneWillLook(q)
    ensures q.started + q.queue == q.submitted
    ensures PoolOk(q)
    decreases |run|
  {
    if run != [] {
      var e := run[|run| - 1];
      var m :| Step(m, e, q) && Reaches(p, run[..|run| - 1], m);
      NoJobIsForgotten(p, run[..|run| - 1], m);
      StepKeepsPoolOk(m, e);
    }
  }

  lemma ReachesOneMore(p: Pool, run: seq<Event>, m: Pool, e: Event)
    requires Reaches(p, run, m) && Enabled(m, e)
    ensures Reaches(p, run + [e], After(m, e))
  {
    var longer := run + [e];
    assert longer[|longer| - 1] == e && longer[..|longer| - 1] == run;
    assert Step(m, e, After(m, e));
  }

  /** Without any further submission the workers can start every queued job. */
  lemma {:induction false} QueueCanDrain(p: Pool, run: seq<Event>, m: Pool) returns (longer: seq<Event>, q: Pool)
    requires PoolOk(m) && Reaches(p, run, m)
    ensures Reaches(p, longer, q) && q.queue == [] && q.submitted == m.submitted && q.started == m.submitted
    decreases |m.queue|
  {
    if m.queue == [] {
      longer, q := run, m;
    } else {
      var w :| w in m.workers && !m.workers[w].Asleep?;
      var r, u := run, m;
      if m.workers[w].Busy? {
        ReachesOneMore(p, run, m, Finish(w));
        StepKeepsPoolOk(m, Finish(w));
        r, u := run + [Event.Finish(w)], After(m, Finish(w));
      }
      ReachesOneMore(p, r, u, Look(w));
      StepKeepsPoolOk(u, Look(w));
      longer, q := QueueCanDrain(p, r + [Event.Look(w)], After(u, Look(w)));
    }
  }

  // ----- the object -----

  class Executor {
    var queue: seq<Job>
    ghost var submitted: seq<Job>
    ghost var started: seq<Job>

    ghost predicate Valid()
      reads this
    {
      started + queue == submitted
    }

    constructor ()
      ensures Valid() && queue == [] && submitted == [] && started == []
    {
      queue, submitted, started := [], [], [];
    }

    /** Appends the job; `notify` says whether one waiting worker is notified. */
    method Execute(job: Job) returns (notify: bool)
      requires Valid()
      modifies this
      ensures Valid() && queue == old(queue) + [job]
      ensures submitted == old(submitted) + [job] && started == old(started)
      ensures notify <==> old(queue) == []
    {
      notify := |queue| == 0;
      queue := queue + [job];
      submitted := submitted + [job];
    }

    /** The part of waitForJob done under the lock once: take the oldest job, or wait (None). */
    method TakeJob() returns (job: Option<Job>)
      requires Valid()
      modifies this
      ensures Valid() && submitted == old(submitted)
      ensures job.None? <==> old(queue) == []
      ensures job.None? ==> queue == old(queue) && started == old(started)
      ensures job.Some? ==> queue == old(queue)[1..] && started == old(started) + [job.value]
      ensures job.Some? ==> job.value == old(submitted)[|old(started)|]
    {
      job := None;
      if |queue| > 0 {
        job := Some(queue[0]);
        started := started + [queue[0]];
        queue := queue[1..];
      }
    }
  }
}
