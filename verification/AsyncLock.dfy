/** The browser's lock for one terminal: submitted tasks run one after the other. A task here is a
    batch of chunks to be written; once started it first adds the number of its chunks to the
    browser's count, then writes them one by one, and may fail at any point. */
module AsyncLock {
  import opened ByteSeqs

  /** A started task and how far it got: step 0 is the count, each further step one write. */
  datatype Job<W> = Job(task: seq<W>, steps: nat)

  datatype LockState<W> = LockState(
    queue: seq<seq<W>>,
    active: bool,
    running: seq<Job<W>>,     // started and not settled
    submitted: seq<seq<W>>,
    settled: seq<Job<W>>,
    counted: nat,             // the browser's count of chunks
    output: seq<W>)           // what the terminal was given

  datatype Event<W> =
    | Submit(task: seq<W>)
    | Step(i: nat)                // the i-th running task does its next step
    | Settle(i: nat, ok: bool)    // the i-th running task resolves, which needs all its steps, or rejects

  function Begin<W>(s: LockState<W>, task: seq<W>): LockState<W> {
    s.(running := s.running + [Job(task, 0)])
  }

  function Act<W>(s: LockState<W>, e: Event<W>): LockState<W> {
    match e
    case Submit(task) =>
      var s1 := s.(submitted := s.submitted + [task]);
      if s.active then s1.(queue := s.queue + [task]) else Begin(s1.(active := true), task)
    case Step(i) =>
      if i < |s.running| && s.running[i].steps <= |s.running[i].task| then
        var job := s.running[i];
        var s1 := s.(running := s.running[i := job.(steps := job.steps + 1)]);
        if job.steps == 0 then s1.(counted := s.counted + |job.task|)
        else s1.(output := s.output + [job.task[job.steps - 1]])
      else s
    case Settle(i, ok) =>
      if i < |s.running| && (ok ==> s.running[i].steps == |s.running[i].task| + 1) then
        var s1 := s.(running := s.running[..i] + s.running[i + 1..], settled := s.settled + [s.running[i]]);
        if s.queue != [] then Begin(s1.(queue := s.queue[1..]), s.queue[0]) else s1.(active := false)
      else s
  }

  function Run<W>(s: LockState<W>, events: seq<Event<W>>): LockState<W>
    decreases |events|
  {
    if events == [] then s else Run(Act(s, events[0]), events[1..])
  }

  function Idle<W>(): LockState<W> {
    LockState([], false, [], [], [], 0, [])
  }

  // ----- What has been done -----

  function Tasks<W>(jobs: seq<Job<W>>): seq<seq<W>> {
    if jobs == [] then [] else [jobs[0].task] + Tasks(jobs[1..])
  }

  /** What a job has written. */
  function Written<W>(job: Job<W>): seq<W> {
    if job.steps == 0 then [] else if job.steps - 1 <= |job.task| then job.task[..job.steps - 1] else job.task
  }

  function Outputs<W>(jobs: seq<Job<W>>): seq<W> {
    if jobs == [] then [] else Written(jobs[0]) + Outputs(jobs[1..])
  }

  function Counts<W>(jobs: seq<Job<W>>): nat {
    if jobs == [] then 0 else (if jobs[0].steps == 0 then 0 else |jobs[0].task|) + Counts(jobs[1..])
  }

  lemma {:induction false} Snoc<W>(jobs: seq<Job<W>>, job: Job<W>)
    ensures Tasks(jobs + [job]) == Tasks(jobs) + [job.task]
    ensures Outputs(jobs + [job]) == Outputs(jobs) + Written(job)
    ensures Counts(jobs + [job]) == Counts(jobs) + (if job.steps == 0 then 0 else |job.task|)
  {
    hide Written;
    if jobs == [] {
      assert [] + [job] == [job];
    } else {
      var all := jobs + [job];
      assert all[0] == jobs[0] && all[1..] == jobs[1..] + [job];
      Snoc(jobs[1..], job);
      assert Outputs(all) == Written(jobs[0]) + Outputs(all[1..]);
      assert Tasks(all) == [jobs[0].task] + Tasks(all[1..]);
    }
  }

  /** At most one task runs; nothing waits unless one does; tasks were started in the order of
      submission, each once, and the terminal was given their writes in that order. */
  ghost predicate LockOk<W>(s: LockState<W>) {
    && |s.running| <= 1
    && (s.active <==> s.running != [])
    && (s.queue != [] ==> s.active)
    && s.submitted == Tasks(s.settled + s.running) + s.queue
    && s.output == Outputs(s.settled + s.running)
    && s.counted == Counts(s.settled + s.running)
    && (forall i :: 0 <= i < |s.running| ==> s.running[i].steps <= |s.running[i].task| + 1)
  }

  /** Nothing runs, as between the end of one task and the start of the next. */
  ghost predicate Between<W>(s: LockState<W>) {
    && s.running == []
    && s.submitted == Tasks(s.settled) + s.queue
    && s.output == Outputs(s.settled)
    && s.counted == Counts(s.settled)
  }

  lemma BeginOk<W>(s: LockState<W>, next: seq<W>, rest: seq<seq<W>>)
    requires Between(s) && s.queue == [next] + rest
    ensures LockOk(Begin(s.(active := true, queue := rest), next))
  {
    Snoc(s.settled, Job(next, 0));
    hide Tasks, Outputs, Counts;
    assert s.running + [Job(next, 0)] == [Job(next, 0)];
    AppendThree(Tasks(s.settled), [next], rest);
    assert Outputs(s.settled) + Written(Job(next, 0)) == Outputs(s.settled);
  }

  lemma SubmitOk<W>(s: LockState<W>, task: seq<W>)
    requires LockOk(s)
    ensures LockOk(Act(s, Submit(task)))
  {
    hide Tasks, Outputs, Counts;
    if s.active {
      AppendThree(Tasks(s.settled + s.running), s.queue, [task]);
    } else {
      assert s.settled + s.running == s.settled && [] + [task] == [task] + [];
      assert Tasks(s.settled) + [] + [task] == Tasks(s.settled) + [task];
      BeginOk(s.(submitted := s.submitted + [task], queue := [task]), task, []);
    }
  }

  lemma StepOk<W>(s: LockState<W>, i: nat)
    requires LockOk(s)
    ensures LockOk(Act(s, Step(i)))
  {
    hide Outputs, Counts, Tasks;
    if i < |s.running| && s.running[i].steps <= |s.running[i].task| {
      var job := s.running[0];
      var job' := job.(steps := job.steps + 1);
      assert s.running == [job] && s.running[0 := job'] == [job'];
      Snoc(s.settled, job);
      Snoc(s.settled, job');
      OneMore(job);
      hide Written;
      if job.steps > 0 {
        AppendThree(Outputs(s.settled), Written(job), [job.task[job.steps - 1]]);
      }
    }
  }

  lemma OneMore<W>(job: Job<W>)
    requires job.steps <= |job.task|
    ensures Written(job.(steps := job.steps + 1))
         == Written(job) + (if job.steps == 0 then [] else [job.task[job.steps - 1]])
  {
  }

  lemma SettledBetween<W>(s: LockState<W>)
    requires LockOk(s) && s.running != []
    ensures s.running == [s.running[0]]
    ensures Between(s.(running := [], settled := s.settled + [s.running[0]]))
  {
    hide Tasks, Outputs, Counts;
    assert s.settled + [s.running[0]] == s.settled + s.running;
  }

  lemma SettleOk<W>(s: LockState<W>, i: nat, ok: bool)
    requires LockOk(s)
    ensures LockOk(Act(s, Settle(i, ok)))
  {
    hide Outputs, Counts, Tasks;
    if i < |s.running| && (ok ==> s.running[i].steps == |s.running[i].task| + 1) {
      SettledBetween(s);
      assert s.running[..0] + s.running[1..] == [];
      var s1 := s.(running := [], settled := s.settled + [s.running[0]]);
      if s.queue != [] {
        assert s.queue == [s.queue[0]] + s.queue[1..];
        hide LockOk, Between;
        BeginOk(s1, s.queue[0], s.queue[1..]);
      } else {
        IdleOk(s1.(active := false));
      }
    }
  }

  lemma IdleOk<W>(s: LockState<W>)
    requires Between(s) && s.queue == [] && !s.active
    ensures LockOk(s)
  {
    hide Outputs, Counts, Tasks;
    assert s.settled + s.running == s.settled;
  }

  lemma ActOk<W>(s: LockState<W>, e: Event<W>)
    requires LockOk(s)
    ensures LockOk(Act(s, e))
  {
    hide LockOk, Act;
    match e
    case Submit(task) => SubmitOk(s, task);
    case Step(i) => StepOk(s, i);
    case Settle(i, ok) => SettleOk(s, i, ok);
  }

  /** Any interleaving of submissions, steps, completions and failures keeps the lock in order. */
  lemma {:induction false} RunOk<W>(s: LockState<W>, events: seq<Event<W>>)
    requires LockOk(s)
    ensures LockOk(Run(s, events))
    decreases |events|
  {
    if events != [] {
      hide LockOk, Act;
      ActOk(s, events[0]);
      RunOk(Act(s, events[0]), events[1..]);
    }
  }

  // ----- Without failures -----

  /** Every settled task did all its steps. */
  predicate NoneFailed<W>(s: LockState<W>) {
    forall i :: 0 <= i < |s.settled| ==> s.settled[i].steps == |s.settled[i].task| + 1
  }

  lemma {:induction false} CompleteJobs<W>(jobs: seq<Job<W>>)
    requires forall i :: 0 <= i < |jobs| ==> jobs[i].steps == |jobs[i].task| + 1
    ensures Outputs(jobs) == Flatten(Tasks(jobs)) && Counts(jobs) == |Flatten(Tasks(jobs))|
  {
    if jobs != [] {
      CompleteJobs(jobs[1..]);
      assert jobs[0].task[..|jobs[0].task|] == jobs[0].task;
    }
  }

  lemma InOrderWrites<W>(s: LockState<W>)
    requires LockOk(s) && NoneFailed(s)
    ensures s.output <= Flatten(s.submitted) && (s.running == [] ==> s.output == Flatten(s.submitted))
  {
    CompleteJobs(s.settled);
    if s.running == [] {
      assert s.settled + s.running == s.settled && Tasks(s.settled) + [] == Tasks(s.settled);
    } else {
      var job := s.running[0];
      assert s.running == [job];
      Snoc(s.settled, job);
      FlattenAppend(Tasks(s.settled), [job.task]);
      FlattenAppend(Tasks(s.settled) + [job.task], s.queue);
      assert Flatten([job.task]) == job.task;
      assert Written(job) <= job.task;
    }
  }

  /** Without failures the terminal shows a prefix of all submitted writes, and all of them once
      nothing runs. */
  lemma WritesInOrder<W>(events: seq<Event<W>>)
    ensures var s := Run(Idle<W>(), events);
            NoneFailed(s) ==> s.output <= Flatten(s.submitted) && (s.running == [] ==> s.output == Flatten(s.submitted))
  {
    hide Run, NoneFailed, LockOk, Flatten;
    StartsOk<W>();
    RunOk(Idle<W>(), events);
    if NoneFailed(Run(Idle<W>(), events)) { InOrderWrites(Run(Idle<W>(), events)); }
  }

  lemma StartsOk<W>()
    ensures LockOk(Idle<W>())
  {
    assert Idle<W>().settled + Idle<W>().running == [];
  }

  // ----- The count -----

  /** Submitted and not yet counted. */
  function Waiting<W>(s: LockState<W>): int {
    |Flatten(s.submitted)| - s.counted
  }

  predicate NoEmptyTask<W>(tasks: seq<seq<W>>) {
    tasks == [] || (tasks[0] != [] && NoEmptyTask(tasks[1..]))
  }

  /** Every started task did at least its first step. */
  predicate AllBegun<W>(jobs: seq<Job<W>>) {
    jobs == [] || (jobs[0].steps > 0 && AllBegun(jobs[1..]))
  }

  lemma {:induction false} NoEmptyTaskSplit<W>(a: seq<seq<W>>, b: seq<seq<W>>)
    ensures NoEmptyTask(a + b) <==> NoEmptyTask(a) && NoEmptyTask(b)
    decreases |a|
  {
    if a == [] {
      assert a + b == b;
    } else {
      assert (a + b)[1..] == a[1..] + b;
      NoEmptyTaskSplit(a[1..], b);
    }
  }

  lemma {:induction false} CountsBegun<W>(jobs: seq<Job<W>>)
    requires NoEmptyTask(Tasks(jobs))
    ensures Counts(jobs) <= |Flatten(Tasks(jobs))|
    ensures Counts(jobs) == |Flatten(Tasks(jobs))| <==> AllBegun(jobs)
    decreases |jobs|
  {
    if jobs == [] {
    } else {
      assert Tasks(jobs)[1..] == Tasks(jobs[1..]);
      CountsBegun(jobs[1..]);
    }
  }

  lemma {:induction false} CountsAtMost<W>(jobs: seq<Job<W>>)
    ensures Counts(jobs) <= |Flatten(Tasks(jobs))|
    decreases |jobs|
  {
    if jobs == [] {
    } else {
      assert Tasks(jobs)[1..] == Tasks(jobs[1..]);
      CountsAtMost(jobs[1..]);
    }
  }

  /** The count never exceeds what was submitted. */
  lemma CountedAtMost<W>(s: LockState<W>)
    requires LockOk(s)
    ensures s.counted <= |Flatten(s.submitted)|
  {
    var jobs := s.settled + s.running;
    hide Tasks, Counts, Outputs, Flatten;
    CountsAtMost(jobs);
    FlattenAppend(Tasks(jobs), s.queue);
  }

  /** The browser's count covers all the chunks that have arrived exactly when no batch is still
      waiting for its turn or for its first step. */
  lemma CountIsCompleteIff<W>(events: seq<Event<W>>)
    requires NoEmptyTask(Run(Idle<W>(), events).submitted)
    ensures var s := Run(Idle<W>(), events);
            && s.counted <= |Flatten(s.submitted)|
            && (s.counted == |Flatten(s.submitted)| <==> s.queue == [] && AllBegun(s.settled + s.running))
  {
    RunOk(Idle<W>(), events);
    var s := Run(Idle<W>(), events);
    hide Run;
    CountedState(s);
  }

  lemma CountedState<W>(s: LockState<W>)
    requires LockOk(s) && NoEmptyTask(s.submitted)
    ensures s.counted <= |Flatten(s.submitted)|
    ensures s.counted == |Flatten(s.submitted)| <==> s.queue == [] && AllBegun(s.settled + s.running)
  {
    var jobs := s.settled + s.running;
    hide Tasks, Counts, Outputs, AllBegun;
    NoEmptyTaskSplit(Tasks(jobs), s.queue);
    CountsBegun(jobs);
    FlattenAppend(Tasks(jobs), s.queue);
    assert s.queue != [] ==> Flatten(s.queue) == s.queue[0] + Flatten(s.queue[1..]);
  }

  // ----- The lock object -----

  /** The closure's state is `queue` and `active`; the rest records what happened. */
  class Lock<W> {
    var queue: seq<seq<W>>
    var active: bool
    ghost var running: seq<Job<W>>
    ghost var submitted: seq<seq<W>>
    ghost var settled: seq<Job<W>>
    ghost var counted: nat
    ghost var output: seq<W>

    ghost function State(): LockState<W>
      reads this
    {
      LockState(queue, active, running, submitted, settled, counted, output)
    }

    constructor ()
      ensures State() == Idle()
    {
      queue, active := [], false;
      running, submitted, settled, counted, output := [], [], [], 0, [];
    }

    /** Submitting: start at once when nothing is active, queue otherwise. */
    method Submit(task: seq<W>) returns (started: bool)
      modifies this
      ensures State() == Act(old(State()), Event.Submit(task))
      ensures started <==> !old(active)
      ensures active && queue == if started then old(queue) else old(queue) + [task]
      ensures running == if started then old(running) + [Job(task, 0)] else old(running)
    {
      submitted := submitted + [task];
      started := !active;
      if active {
        queue := queue + [task];
      } else {
        active := true;
        running := running + [Job(task, 0)];
      }
    }

    /** After a task has settled either way: start the next one, or become inactive. */
    method OnSettled(ghost i: nat, ghost ok: bool) returns (next: Option<seq<W>>)
      requires i < |running| && (ok ==> running[i].steps == |running[i].task| + 1)
      modifies this
      ensures State() == Act(old(State()), Settle(i, ok))
      ensures next == if old(queue) == [] then None else Some(old(queue)[0])
      ensures active == if next.None? then false else old(active)
      ensures queue == if next.None? then [] else old(queue)[1..]
      ensures running == old(running)[..i] + old(running)[i + 1..] + (if next.None? then [] else [Job(next.value, 0)])
    {
      settled := settled + [running[i]];
      running := running[..i] + running[i + 1..];
      if |queue| > 0 {
        next := Some(queue[0]);
        running := running + [Job(queue[0], 0)];
        queue := queue[1..];
      } else {
        next := None;
        active := false;
      }
    }
  }
}
