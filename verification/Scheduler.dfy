/**
 * Tagged tasks, their timers and the queue of runs (scheduler/scheduler.cc, task.cc, one-time-task.cc,
 * periodic-task.cc).
 */
module Schedulers {
  import opened StateVectors

  /** A task object. */
  type TaskId = nat

  type Tag = string

  /**
   * `armed` says that the libevent timer is pending. `calls` and `resets` count, for the statements only, how often
   * the callback has run and how often the task was reset for another run.
   */
  datatype Task = Task(tag: Tag, periodic: bool, invoked: bool, armed: bool, calls: nat, resets: nat)

  /** Every task object there is, m_taskMap, the runs queued in the one-thread executor, and the run in progress. */
  datatype Sched = Sched(tasks: map<TaskId, Task>, taskMap: map<Tag, TaskId>, queue: seq<TaskId>,
    running: Option<TaskId>)

  // ----- specification functions -----

  function Set(s: Sched, t: TaskId, task: Task): Sched { s.(tasks := s.tasks[t := task]) }

  function Reset(task: Task): Task { task.(invoked := false, resets := task.resets + 1) }

  /** addTask; it fails when the tag is taken. */
  function Added(s: Sched, t: TaskId, reset: bool): Sched
    requires t in s.tasks
  {
    var task := s.tasks[t];
    if task.tag in s.taskMap then s
    else Set(s, t, (if reset then Reset(task) else task).(armed := true)).(taskMap := s.taskMap[task.tag := t])
  }

  /** rescheduleTask and rescheduleTaskAt for a tag: whichever task is mapped is reset and its timer set again. */
  function RescheduledTag(s: Sched, tag: Tag): Sched
    requires tag in s.taskMap ==> s.taskMap[tag] in s.tasks
  {
    if tag in s.taskMap then Set(s, s.taskMap[tag], Reset(s.tasks[s.taskMap[tag]]).(armed := true)) else s
  }

  /** rescheduleTask (reset) and rescheduleTaskAt (no reset) for a task, which add it when its tag is free. */
  function Rescheduled(s: Sched, t: TaskId, reset: bool): Sched
    requires t in s.tasks
    requires s.tasks[t].tag in s.taskMap ==> s.taskMap[s.tasks[t].tag] in s.tasks
  {
    if s.tasks[t].tag in s.taskMap then RescheduledTag(s, s.tasks[t].tag) else Added(s, t, reset)
  }

  function Deleted(s: Sched, tag: Tag): Sched
    requires tag in s.taskMap ==> s.taskMap[tag] in s.tasks
  {
    if tag in s.taskMap then
      var t := s.taskMap[tag];
      Set(s, t, s.tasks[t].(armed := false)).(taskMap := s.taskMap - {tag})
    else s
  }

  /** deleteTask for a matcher. */
  function DeletedAll(s: Sched, tags: set<Tag>): Sched {
    s.(tasks := map t | t in s.tasks ::
         if s.tasks[t].tag in tags && s.tasks[t].tag in s.taskMap && s.taskMap[s.tasks[t].tag] == t
           then s.tasks[t].(armed := false) else s.tasks[t],
       taskMap := s.taskMap - tags)
  }

  /** The timer fires: the executor is handed a run. */
  function Fired(s: Sched, t: TaskId): Sched
    requires t in s.tasks
  {
    Set(s, t, s.tasks[t].(armed := false)).(queue := s.queue + [t])
  }

  /** The executor takes the oldest run: the callback starts unless the task is marked as invoked. */
  function RunBegun(s: Sched): Sched
    requires s.queue != [] && s.queue[0] in s.tasks
  {
    var t, rest := s.queue[0], s.(queue := s.queue[1..]);
    var task := s.tasks[t];
    if task.invoked then rest
    else Set(rest, t, task.(invoked := task.periodic, calls := task.calls + 1)).(running := Some(t))
  }

  /**
   * The callback has returned: a one-time task deletes its tag, a periodic one that is still invoked reschedules it.
   */
  function RunEnded(s: Sched): Sched
    requires s.running.Some? && s.running.value in s.tasks
    requires s.tasks[s.running.value].tag in s.taskMap ==> s.taskMap[s.tasks[s.running.value].tag] in s.tasks
  {
    var t, rest := s.running.value, s.(running := None);
    var task := s.tasks[t];
    if !task.periodic then Deleted(Set(rest, t, task.(invoked := true)), task.tag)
    else if task.invoked then RescheduledTag(rest, task.tag)
    else rest
  }

  // ----- events: any thread and any callback may call the scheduler at any time -----

  datatype Event =
    | Add(t: TaskId)
    | RescheduleTask(t: TaskId)
    | RescheduleTaskAt(t: TaskId)
    | RescheduleTag(tag: Tag)
    | DeleteTag(tag: Tag)
    | DeleteMatching(tags: set<Tag>)
    | Fire(t: TaskId)
    | RunBegin
    | RunEnd

  predicate Enabled(s: Sched, e: Event) {
    match e
    case Add(t) => t in s.tasks
    case RescheduleTask(t) => t in s.tasks
    case RescheduleTaskAt(t) => t in s.tasks
    case Fire(t) => t in s.tasks && s.tasks[t].armed
    case RunBegin => s.running.None? && s.queue != []
    case RunEnd => s.running.Some?
    case _ => true
  }

  /**
   * rescheduleTaskAt adds a task without a reset, so the task must not be marked as invoked, unless its run is in
   * progress.
   */
  predicate Careful(s: Sched, e: Event) {
    e.RescheduleTaskAt? && e.t in s.tasks && s.tasks[e.t].tag !in s.taskMap ==>
      !s.tasks[e.t].invoked || s.running == Some(e.t)
  }

  predicate Closed(s: Sched) {
    && (forall tag :: tag in s.taskMap ==> s.taskMap[tag] in s.tasks && s.tasks[s.taskMap[tag]].tag == tag)
    && (forall i :: 0 <= i < |s.queue| ==> s.queue[i] in s.tasks)
    && (s.running.Some? ==> s.running.value in s.tasks)
  }

  function After(s: Sched, e: Event): Sched
    requires Closed(s) && Enabled(s, e)
  {
    match e
    case Add(t) => Added(s, t, true)
    case RescheduleTask(t) => Rescheduled(s, t, true)
    case RescheduleTaskAt(t) => Rescheduled(s, t, false)
    case RescheduleTag(tag) => RescheduledTag(s, tag)
    case DeleteTag(tag) => Deleted(s, tag)
    case DeleteMatching(tags) => DeletedAll(s, tags)
    case Fire(t) => Fired(s, t)
    case RunBegin => RunBegun(s)
    case RunEnd => RunEnded(s)
  }

  // ----- no dead tags -----

  ghost predicate Mapped(s: Sched, t: TaskId) {
    t in s.tasks && s.tasks[t].tag in s.taskMap && s.taskMap[s.tasks[t].tag] == t
  }

  /** Only mapped tasks have timers. */
  ghost predicate TimersAreMapped(s: Sched) {
    forall t :: t in s.tasks && s.tasks[t].armed ==> Mapped(s, t)
  }

  /**
   * The task will run: it is not marked as invoked and its timer is set or a run is queued, or it is running now
   * and will be deleted or rescheduled when the run ends.
   */
  ghost predicate Alive(s: Sched, t: TaskId)
    requires t in s.tasks
  {
    || (!s.tasks[t].invoked && (s.tasks[t].armed || t in s.queue))
    || (s.running == Some(t) && (s.tasks[t].periodic ==> s.tasks[t].invoked))
  }

  ghost predicate NoDeadTags(s: Sched) {
    forall t :: Mapped(s, t) ==> Alive(s, t)
  }

  /** Every reset buys at most one call of the callback. */
  ghost predicate CallsArePaid(s: Sched) {
    forall t :: t in s.tasks ==>
      s.tasks[t].calls <= s.tasks[t].resets + if s.tasks[t].invoked || (s.running == Some(t) && !s.tasks[t].periodic)
        then 1 else 0
  }

  ghost predicate SchedOk(s: Sched) {
    Closed(s) && TimersAreMapped(s) && NoDeadTags(s) && CallsArePaid(s)
  }

  lemma DeletionStaysPaid(s: Sched, tags: set<Tag>)
    requires CallsArePaid(s)
    ensures CallsArePaid(DeletedAll(s, tags))
  {
  }

  lemma RunStaysPaid(s: Sched)
    requires Closed(s) && CallsArePaid(s)
    ensures s.running.Some? ==> CallsArePaid(RunEnded(s))
    ensures s.running.None? && s.queue != [] ==> CallsArePaid(RunBegun(s))
  {
  }

  lemma CallsStayPaid(s: Sched, e: Event)
    requires Closed(s) && Enabled(s, e) && CallsArePaid(s)
    ensures CallsArePaid(After(s, e))
  {
    match e {
      case RunBegin => RunStaysPaid(s);
      case RunEnd => RunStaysPaid(s);
      case DeleteMatching(tags) => DeletionStaysPaid(s, tags);
      case _ =>
    }
  }

  lemma StaysClosed(s: Sched, e: Event)
    requires Closed(s) && Enabled(s, e)
    ensures Closed(After(s, e))
  {
    match e {
      case RunBegin => assert s.queue[0] in s.tasks;
      case RunEnd => RunEndedIsClosed(s);
      case _ =>
    }
  }

  lemma RunEndedIsClosed(s: Sched)
    requires Closed(s) && s.running.Some?
    ensures Closed(RunEnded(s))
  {
  }

  lemma DeletionKeepsTimersMapped(s: Sched, tags: set<Tag>)
    requires Closed(s) && TimersAreMapped(s)
    ensures TimersAreMapped(DeletedAll(s, tags))
  {
  }

  lemma RunEndKeepsTimersMapped(s: Sched)
    requires Closed(s) && s.running.Some? && TimersAreMapped(s)
    ensures TimersAreMapped(RunEnded(s))
  {
  }

  lemma TimersStayMapped(s: Sched, e: Event)
    requires Closed(s) && Enabled(s, e) && TimersAreMapped(s)
    ensures TimersAreMapped(After(s, e))
  {
    match e {
      case RunEnd => RunEndKeepsTimersMapped(s);
      case DeleteMatching(tags) => DeletionKeepsTimersMapped(s, tags);
      case _ =>
    }
  }

  lemma EndedStaysAlive(s: Sched, t: TaskId)
    requires Closed(s) && s.running.Some? && NoDeadTags(s) && Mapped(RunEnded(s), t)
    ensures Alive(RunEnded(s), t)
  {
    assert Mapped(s, t) && Alive(s, t);
  }

  lemma TaskStaysAlive(s: Sched, e: Event, t: TaskId)
    requires Closed(s) && Enabled(s, e) && Careful(s, e) && TimersAreMapped(s) && NoDeadTags(s)
    requires !e.RunBegin? && !e.RunEnd? && Mapped(After(s, e), t)
    ensures Alive(After(s, e), t)
  {
    if Mapped(s, t) {
      assert Alive(s, t);
    }
  }

  lemma BegunStaysAlive(s: Sched, t: TaskId)
    requires Closed(s) && s.running.None? && s.queue != [] && NoDeadTags(s) && Mapped(RunBegun(s), t)
    ensures Alive(RunBegun(s), t)
  {
    assert Alive(s, t);
    assert s.queue == [s.queue[0]] + s.queue[1..];
  }

  lemma StaysAlive(s: Sched, e: Event)
    requires Closed(s) && Enabled(s, e) && Careful(s, e) && TimersAreMapped(s) && NoDeadTags(s)
    ensures NoDeadTags(After(s, e))
  {
    forall t | Mapped(After(s, e), t)
      ensures Alive(After(s, e), t)
    {
      if e.RunBegin? {
        BegunStaysAlive(s, t);
      } else if e.RunEnd? {
        EndedStaysAlive(s, t);
      } else {
        TaskStaysAlive(s, e, t);
      }
    }
  }

  /** Exactly that condition keeps rescheduleTaskAt from leaving a dead tag. */
  lemma RescheduleAtIsSafeIff(s: Sched, t: TaskId)
    requires SchedOk(s) && t in s.tasks
    ensures NoDeadTags(After(s, RescheduleTaskAt(t))) <==> Careful(s, RescheduleTaskAt(t))
  {
    var e := RescheduleTaskAt(t);
    if Careful(s, e) {
      StaysAlive(s, e);
    } else {
      var s' := After(s, e);
      assert Mapped(s', t) && !Alive(s', t);
    }
  }

  /** Nothing will ever run the task mapped under the tag, which stays taken until someone deletes or reschedules it. */
  ghost predicate Dead(s: Sched, t: TaskId) {
    Mapped(s, t) && !s.tasks[t].armed && t !in s.queue && s.running != Some(t)
  }

  /** An invoked task that is added through rescheduleTaskAt is dead once its timer has fired. */
  lemma InvokedTaskDies(s: Sched, t: TaskId)
    requires SchedOk(s) && t in s.tasks && s.tasks[t].invoked && s.tasks[t].tag !in s.taskMap
    requires s.queue == [] && s.running == None
    ensures var added := After(s, RescheduleTaskAt(t));
      && Closed(added) && Enabled(added, Fire(t))
      && Closed(After(added, Fire(t))) && Enabled(After(added, Fire(t)), RunBegin)
      && Dead(After(After(added, Fire(t)), RunBegin), t)
  {
    var added := After(s, RescheduleTaskAt(t));
    StaysClosed(s, RescheduleTaskAt(t));
    StaysClosed(added, Fire(t));
  }

  lemma AliveIsNotDead(s: Sched, t: TaskId)
    requires SchedOk(s)
    ensures !Dead(s, t)
  {
    if Mapped(s, t) {
      assert Alive(s, t);
    }
  }

  // ----- whole runs -----

  ghost function Ran(s: Sched, run: seq<Event>): Sched {
    if run == [] then s
    else
      var m, e := Ran(s, run[..|run| - 1]), run[|run| - 1];
      if Closed(m) && Enabled(m, e) then After(m, e) else m
  }

  ghost predicate Runs(s: Sched, run: seq<Event>) {
    run == [] ||
    (var m := Ran(s, run[..|run| - 1]);
     Runs(s, run[..|run| - 1]) && Closed(m) && Enabled(m, run[|run| - 1]))
  }

  /** Every call of rescheduleTaskAt in the run is careful. */
  ghost predicate AllCareful(s: Sched, run: seq<Event>) {
    run == [] || (AllCareful(s, run[..|run| - 1]) && Careful(Ran(s, run[..|run| - 1]), run[|run| - 1]))
  }

  /**
   * After any interleaving of calls, timers and runs no tag is dead, no unmapped timer is set and no callback ran
   * unpaid.
   */
  lemma {:induction false} NoTagDies(s: Sched, run: seq<Event>)
    requires SchedOk(s) && Runs(s, run) && AllCareful(s, run)
    ensures SchedOk(Ran(s, run))
    ensures forall t :: !Dead(Ran(s, run), t)
  {
    if run != [] {
      var e := run[|run| - 1];
      var m := Ran(s, run[..|run| - 1]);
      NoTagDies(s, run[..|run| - 1]);
      StaysClosed(m, e);
      TimersStayMapped(m, e);
      StaysAlive(m, e);
      CallsStayPaid(m, e);
    }
    forall t { AliveIsNotDead(Ran(s, run), t); }
  }

  // ----- what deleting, adding and rescheduling achieve -----

  /** The tags that the event deletes. */
  function DeletedTags(e: Event): set<Tag> {
    match e
    case DeleteTag(tag) => {tag}
    case DeleteMatching(tags) => tags
    case _ => {}
  }

  /** No task of the tag is mapped, and none has a timer. */
  ghost predicate IsGone(s: Sched, tag: Tag) {
    tag !in s.taskMap && forall t :: t in s.tasks && s.tasks[t].tag == tag ==> !s.tasks[t].armed
  }

  /** A deleted tag is free and its tasks have no timer; nothing else changes. */
  lemma DeletionDeletes(s: Sched, e: Event, tag: Tag)
    requires Closed(s) && TimersAreMapped(s) && tag in DeletedTags(e)
    ensures IsGone(After(s, e), tag)
  {
  }

  lemma DeletionSparesOthers(s: Sched, e: Event, tag: Tag, t: TaskId)
    requires Closed(s) && (e.DeleteTag? || e.DeleteMatching?)
    ensures var n := After(s, e);
      && n.queue == s.queue && n.running == s.running && n.tasks.Keys == s.tasks.Keys
      && (tag !in DeletedTags(e) ==> (tag in n.taskMap <==> tag in s.taskMap))
      && (tag !in DeletedTags(e) && tag in s.taskMap ==> n.taskMap[tag] == s.taskMap[tag])
      && (t in s.tasks && s.tasks[t].tag !in DeletedTags(e) ==> n.tasks[t] == s.tasks[t])
      && (t in s.tasks ==> n.tasks[t].(armed := false) == s.tasks[t].(armed := false))
  {
  }

  /** Adding a task whose tag is free maps it and sets its timer, ready to run; with the tag taken nothing happens. */
  lemma AddingArmsIff(s: Sched, t: TaskId)
    requires Closed(s) && t in s.tasks
    ensures var n, tag := After(s, Add(t)), s.tasks[t].tag;
      if tag in s.taskMap then n == s
      else tag in n.taskMap && n.taskMap[tag] == t && n.tasks[t].armed && !n.tasks[t].invoked
  {
  }

  /** So a task can be scheduled anew under a tag that has just been deleted. */
  lemma DeletedTagCanBeAdded(s: Sched, e: Event, t: TaskId)
    requires Closed(s) && TimersAreMapped(s) && t in s.tasks && s.tasks[t].tag in DeletedTags(e)
    ensures Closed(After(s, e)) && Enabled(After(s, e), Add(t))
    ensures var n, tag := After(After(s, e), Add(t)), s.tasks[t].tag;
      tag in n.taskMap && n.taskMap[tag] == t && n.tasks[t].armed && !n.tasks[t].invoked
  {
    StaysClosed(s, e);
    DeletionDeletes(s, e, s.tasks[t].tag);
    DeletionSparesOthers(s, e, s.tasks[t].tag, t);
    AddingArmsIff(After(s, e), t);
  }

  /** Rescheduling a tag sets the timer of the task that is mapped, ready to run, and changes no other task. */
  lemma ReschedulingArms(s: Sched, tag: Tag, t: TaskId)
    requires Closed(s) && t in s.tasks
    ensures var n := After(s, RescheduleTag(tag));
      && n.taskMap == s.taskMap && n.queue == s.queue && n.running == s.running
      && (tag in s.taskMap ==> n.tasks[s.taskMap[tag]].armed && !n.tasks[s.taskMap[tag]].invoked)
      && (tag !in s.taskMap || s.taskMap[tag] != t ==> n.tasks[t] == s.tasks[t])
  {
  }

  /** Rescheduling a task leaves its tag mapped to a task whose timer is set: the one that was mapped, or itself. */
  lemma ReschedulingTaskArms(s: Sched, t: TaskId, e: Event)
    requires Closed(s) && t in s.tasks && (e == RescheduleTask(t) || e == RescheduleTaskAt(t))
    ensures var n, tag := After(s, e), s.tasks[t].tag;
      && tag in n.taskMap && n.taskMap[tag] == (if tag in s.taskMap then s.taskMap[tag] else t)
      && n.tasks[n.taskMap[tag]].armed
      && (e.RescheduleTask? || tag in s.taskMap ==> !n.tasks[n.taskMap[tag]].invoked)
      && (e.RescheduleTaskAt? && tag !in s.taskMap ==> n.tasks[t].invoked == s.tasks[t].invoked)
  {
  }

  /** When a run ends, a one-time task has freed its tag, and a periodic one that was not reset is scheduled again. */
  lemma EndOfRun(s: Sched)
    requires Closed(s) && s.running.Some?
    ensures var n, task := After(s, RunEnd), s.tasks[s.running.value];
      && n.running.None?
      && (!task.periodic ==> task.tag !in n.taskMap && n.tasks[s.running.value].invoked)
      && (task.periodic && task.invoked && task.tag in s.taskMap ==>
           n.tasks[s.taskMap[task.tag]].armed && !n.tasks[s.taskMap[task.tag]].invoked)
      && (task.periodic && !task.invoked ==> n == s.(running := None))
  {
  }

  /** The callback of the oldest queued run starts exactly when its task is not marked as invoked. */
  lemma StartOfRun(s: Sched)
    requires Closed(s) && s.running.None? && s.queue != []
    ensures var n, t := After(s, RunBegin), s.queue[0];
      && n.tasks[t].calls == s.tasks[t].calls + (if s.tasks[t].invoked then 0 else 1)
      && n.running == (if s.tasks[t].invoked then None else Some(t))
      && n.tasks[t].invoked == (s.tasks[t].invoked || s.tasks[t].periodic)
      && (forall x :: x in s.tasks && x != t ==> n.tasks[x] == s.tasks[x])
  {
  }

  // ----- runs start in the order of firing -----

  function FiredBy(e: Event): seq<TaskId> { if e.Fire? then [e.t] else [] }

  function TakenBy(m: Sched, e: Event): seq<TaskId> { if e.RunBegin? && m.queue != [] then [m.queue[0]] else [] }

  /** The tasks whose timers fired, in order. */
  function Firings(run: seq<Event>): seq<TaskId> {
    if run == [] then [] else Firings(run[..|run| - 1]) + FiredBy(run[|run| - 1])
  }

  /** The tasks whose runs the executor took up, in order. */
  ghost function TakenUp(s: Sched, run: seq<Event>): seq<TaskId> {
    if run == [] then []
    else TakenUp(s, run[..|run| - 1]) + TakenBy(Ran(s, run[..|run| - 1]), run[|run| - 1])
  }

  lemma QueueMoves(m: Sched, e: Event)
    requires Closed(m) && Enabled(m, e)
    ensures m.queue + FiredBy(e) == TakenBy(m, e) + After(m, e).queue
  {
    if e.RunBegin? {
      assert m.queue == [m.queue[0]] + m.queue[1..];
    }
  }

  lemma StaysInOrder(start: seq<TaskId>, fired: seq<TaskId>, taken: seq<TaskId>, queue: seq<TaskId>,
                     f: seq<TaskId>, t: seq<TaskId>, q: seq<TaskId>)
    requires start + fired == taken + queue && queue + f == t + q
    ensures start + (fired + f) == taken + t + q
  {
    assert start + (fired + f) == start + fired + f;
    assert taken + queue + f == taken + (queue + f);
    assert taken + (t + q) == taken + t + q;
  }

  /** Runs are taken up in the order in which the timers fired, each once. */
  lemma {:induction false} RunsInOrderOfFiring(s: Sched, run: seq<Event>)
    requires Runs(s, run)
    ensures s.queue + Firings(run) == TakenUp(s, run) + Ran(s, run).queue
  {
    if run != [] {
      var before, e := run[..|run| - 1], run[|run| - 1];
      var m := Ran(s, before);
      RunsInOrderOfFiring(s, before);
      QueueMoves(m, e);
      StaysInOrder(s.queue, Firings(before), TakenUp(s, before), m.queue, FiredBy(e), TakenBy(m, e), After(m, e).queue);
    }
  }

  // ----- a deleted task runs out -----

  /** The event neither adds nor reschedules a task of the tag. */
  predicate LeavesAlone(s: Sched, e: Event, tag: Tag) {
    match e
    case Add(t) => t in s.tasks ==> s.tasks[t].tag != tag
    case RescheduleTask(t) => t in s.tasks ==> s.tasks[t].tag != tag
    case RescheduleTaskAt(t) => t in s.tasks ==> s.tasks[t].tag != tag
    case RescheduleTag(g) => g != tag
    case _ => true
  }

  ghost predicate AllLeaveAlone(s: Sched, run: seq<Event>, tag: Tag) {
    run == [] || (AllLeaveAlone(s, run[..|run| - 1], tag) && LeavesAlone(Ran(s, run[..|run| - 1]), run[|run| - 1], tag))
  }

  /** How many runs of the task are queued. */
  function Queued(s: Sched, t: TaskId): nat { multiset(s.queue)[t] }

  lemma GoneStays(s: Sched, e: Event, tag: Tag)
    requires Closed(s) && TimersAreMapped(s) && Enabled(s, e) && IsGone(s, tag) && LeavesAlone(s, e, tag)
    ensures IsGone(After(s, e), tag)
  {
    if e.RunEnd? {
      GoneStaysAtEnd(s, tag);
    }
  }

  lemma GoneStaysAtEnd(s: Sched, tag: Tag)
    requires Closed(s) && TimersAreMapped(s) && s.running.Some? && IsGone(s, tag)
    ensures IsGone(RunEnded(s), tag)
  {
  }

  lemma GoneUsesUpItsRuns(s: Sched, e: Event, tag: Tag, t: TaskId)
    requires Closed(s) && Enabled(s, e) && IsGone(s, tag) && t in s.tasks && s.tasks[t].tag == tag
    ensures t in After(s, e).tasks && After(s, e).tasks[t].tag == tag
    ensures After(s, e).tasks[t].calls + Queued(After(s, e), t) <= s.tasks[t].calls + Queued(s, t)
  {
    if e.RunBegin? {
      BeginUsesUpRun(s, t);
    } else {
      OnlyRunsCall(s, e, t);
      QueueMoves(s, e);
      assert e.Fire? ==> e.t != t;
    }
  }

  lemma BeginUsesUpRun(s: Sched, t: TaskId)
    requires Closed(s) && Enabled(s, RunBegin) && t in s.tasks
    ensures var n := After(s, RunBegin);
      t in n.tasks && n.tasks[t].tag == s.tasks[t].tag &&
      n.tasks[t].calls + Queued(n, t) <= s.tasks[t].calls + Queued(s, t)
  {
    StartOfRun(s);
    assert s.queue == [s.queue[0]] + s.queue[1..];
  }

  lemma OnlyRunsCall(s: Sched, e: Event, t: TaskId)
    requires Closed(s) && Enabled(s, e) && !e.RunBegin? && t in s.tasks
    ensures var n := After(s, e);
      t in n.tasks && n.tasks[t].tag == s.tasks[t].tag && n.tasks[t].calls == s.tasks[t].calls
  {
  }

  /**
   * In every run after a deletion in which the tag is not added or rescheduled, the callbacks of its tasks start at
   * most as often as runs of them were queued already.
   */
  lemma {:induction false} DeletedTaskRunsOut(s: Sched, run: seq<Event>, tag: Tag, t: TaskId)
    requires SchedOk(s) && Runs(s, run) && IsGone(s, tag) && AllLeaveAlone(s, run, tag)
    requires t in s.tasks && s.tasks[t].tag == tag
    ensures var n := Ran(s, run);
      && Closed(n) && TimersAreMapped(n) && IsGone(n, tag) && t in n.tasks && n.tasks[t].tag == tag
      && n.tasks[t].calls + Queued(n, t) <= s.tasks[t].calls + Queued(s, t)
  {
    if run != [] {
      var before, e := run[..|run| - 1], run[|run| - 1];
      var m := Ran(s, before);
      DeletedTaskRunsOut(s, before, tag, t);
      StaysClosed(m, e);
      TimersStayMapped(m, e);
      GoneStays(m, e, tag);
      GoneUsesUpItsRuns(m, e, tag, t);
    }
  }

  lemma DeletedAllOneMore(s: Sched, done: set<Tag>, tag: Tag)
    requires Closed(s) && tag in s.taskMap && tag !in done
    ensures Closed(DeletedAll(s, done))
    ensures DeletedAll(s, done + {tag}) == Deleted(DeletedAll(s, done), tag)
  {
    var a, b := DeletedAll(s, done + {tag}), Deleted(DeletedAll(s, done), tag);
    assert a.taskMap == b.taskMap;
    assert a.tasks == b.tasks;
  }

  lemma OnlyMappedTagsMatter(s: Sched, done: set<Tag>, tags: set<Tag>)
    requires s.taskMap.Keys * tags <= done <= tags
    ensures DeletedAll(s, done) == DeletedAll(s, tags)
  {
    assert s.taskMap - done == s.taskMap - tags;
    assert DeletedAll(s, done).tasks == DeletedAll(s, tags).tasks;
  }

  // ----- the object -----

  /** The scheduler with its tasks and its executor; task objects are entries of `tasks`. */
  class Scheduler {
    var tasks: map<TaskId, Task>
    var taskMap: map<Tag, TaskId>
    var queue: seq<TaskId>
    var running: Option<TaskId>

    ghost function Value(): Sched
      reads this
    {
      Sched(tasks, taskMap, queue, running)
    }

    ghost predicate Valid()
      reads this
    {
      Closed(Value()) && TimersAreMapped(Value())
    }

    constructor ()
      ensures Valid() && Value() == Sched(map[], map[], [], None)
    {
      tasks, taskMap, queue, running := map[], map[], [], None;
    }

    method NewTask(t: TaskId, tag: Tag, periodic: bool)
      requires Valid() && t !in tasks
      modifies this`tasks
      ensures Valid() && tasks == old(tasks)[t := Task(tag, periodic, false, false, 0, 0)]
    {
      tasks := tasks[t := Task(tag, periodic, false, false, 0, 0)];
    }

    method AddTask(t: TaskId, reset: bool) returns (added: bool)
      requires Valid() && t in tasks
      modifies this`tasks, this`taskMap
      ensures Valid() && Value() == Added(old(Value()), t, reset)
      ensures added == (tasks[t].tag !in old(taskMap))
    {
      added := AddToMap(t);
      if added {
        if reset {
          tasks := tasks[t := Reset(tasks[t])];
        }
        tasks := tasks[t := tasks[t].(armed := true)];
      }
    }

    method AddToMap(t: TaskId) returns (added: bool)
      requires Valid() && t in tasks
      modifies this`taskMap
      ensures added == (tasks[t].tag !in old(taskMap))
      ensures taskMap == if added then old(taskMap)[tasks[t].tag := t] else old(taskMap)
      ensures Valid()
    {
      added := tasks[t].tag !in taskMap;
      if added {
        taskMap := taskMap[tasks[t].tag := t];
      }
    }

    method RescheduleTag(tag: Tag)
      requires Valid()
      modifies this`tasks
      ensures Valid() && Value() == RescheduledTag(old(Value()), tag)
    {
      if tag in taskMap {
        var t := taskMap[tag];
        tasks := tasks[t := Reset(tasks[t])];
        tasks := tasks[t := tasks[t].(armed := true)];
      }
    }

    /** rescheduleTask with `reset`, rescheduleTaskAt without. */
    method RescheduleTask(t: TaskId, reset: bool)
      requires Valid() && t in tasks
      modifies this`tasks, this`taskMap
      ensures Valid() && Value() == Rescheduled(old(Value()), t, reset)
    {
      if tasks[t].tag in taskMap {
        RescheduleTag(tasks[t].tag);
      } else {
        var _ := AddTask(t, reset);
      }
    }

    method DeleteTask(tag: Tag)
      requires Valid()
      modifies this`tasks, this`taskMap
      ensures Valid() && Value() == Deleted(old(Value()), tag)
      ensures IsGone(Value(), tag)
    {
      DeletionDeletes(Value(), DeleteTag(tag), tag);
      if tag in taskMap {
        var t := taskMap[tag];
        tasks := tasks[t := tasks[t].(armed := false)];
        taskMap := taskMap - {tag};
      }
    }

    /** Walks the map once, deleting the tasks that match. */
    method DeleteMatching(tags: set<Tag>)
      requires Valid()
      modifies this`tasks, this`taskMap
      ensures Valid() && Value() == DeletedAll(old(Value()), tags)
      ensures forall tag :: tag in tags ==> IsGone(Value(), tag)
    {
      ghost var before := Value();
      ghost var done: set<Tag> := {};
      var todo := taskMap.Keys;
      assert DeletedAll(before, {}) == before by {
        assert before.taskMap - {} == before.taskMap;
      }
      while todo != {}
        invariant Valid()
        invariant todo <= before.taskMap.Keys && before.taskMap.Keys * tags <= done + todo && done <= tags
          && done !! todo
        invariant Value() == DeletedAll(before, done)
        decreases todo
      {
        var tag :| tag in todo;
        if tag in tags {
          DeletedAllOneMore(before, done, tag);
          DeleteTask(tag);
          done := done + {tag};
        }
        todo := todo - {tag};
      }
      OnlyMappedTagsMatter(before, done, tags);
      forall tag | tag in tags
        ensures IsGone(Value(), tag)
      {
        DeletionDeletes(before, Event.DeleteMatching(tags), tag);
      }
    }

    method Fire(t: TaskId)
      requires Valid() && t in tasks && tasks[t].armed
      modifies this`tasks, this`queue
      ensures Valid() && Value() == Fired(old(Value()), t)
    {
      tasks := tasks[t := tasks[t].(armed := false)];
      queue := queue + [t];
    }

    method RunBegin()
      requires Valid() && running.None? && queue != []
      modifies this`tasks, this`queue, this`running
      ensures Valid() && Value() == RunBegun(old(Value()))
    {
      var t := queue[0];
      queue := queue[1..];
      if !tasks[t].invoked {
        tasks := tasks[t := tasks[t].(invoked := tasks[t].periodic, calls := tasks[t].calls + 1)];
        running := Some(t);
      }
    }

    method RunEnd()
      requires Valid() && running.Some?
      modifies this`tasks, this`taskMap, this`running
      ensures Valid() && Value() == RunEnded(old(Value()))
    {
      var t := running.value;
      running := None;
      if !tasks[t].periodic {
        tasks := tasks[t := tasks[t].(invoked := true)];
        DeleteTask(tasks[t].tag);
      } else if tasks[t].invoked {
        RescheduleTag(tasks[t].tag);
      }
    }
  }
}
