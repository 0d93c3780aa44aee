/** The Cloud Tasks scheduler: a job becomes a named task with the job as its body. */
module CloudTasks {
  import opened Wrappers
  import opened Jobs
  import opened Fanout
  import opened TaskCodec

  const MAX_TASK_BODY: nat := 95 * 1024

  const TOO_LARGE := "scheduler: serialized job exceeds Cloud Tasks limit"
  const UNREACHABLE := "scheduler: failed to create task"

  /** Whether the task service is reached, and whether its answer comes back. */
  datatype Fate = Answered | AnswerLost | Unreached

  function TaskName(queuePath: string, id: string): string {
    queuePath + "/tasks/" + id
  }

  /** What scheduling a job amounts to: an error already certain, or an attempt to create its task. */
  function SlotFor(codec: Codec, queuePath: string, job: Job, fate: Fate): Slot {
    var body := MarshalJob(codec, job);
    if |body| > MAX_TASK_BODY then Await(EnqueueResult("", Some(TOO_LARGE)))
    else if fate.Unreached? then Await(EnqueueResult("", Some(UNREACHABLE)))
    else Create(job.id, TaskName(queuePath, job.id), body, fate.AnswerLost?)
  }

  /** The goroutines of a bulk call, one for each job. */
  function SlotsFor(codec: Codec, queuePath: string, jobs: seq<Job>, fates: seq<Fate>): (slots: seq<Slot>)
    requires |jobs| == |fates|
    ensures |slots| == |jobs|
  {
    seq(|jobs|, i requires 0 <= i < |jobs| => SlotFor(codec, queuePath, jobs[i], fates[i]))
  }

  /** Scheduling the job creates its task: the body fits, the service is reached and the name is free. */
  predicate Creates(codec: Codec, queuePath: string, job: Job, fate: Fate, before: Tasks) {
    |MarshalJob(codec, job)| <= 97280 && !fate.Unreached? && queuePath + "/tasks/" + job.id !in before
  }

  /** Exactly the tasks that the jobs create, one by one, are added, and each result says so. */
  ghost predicate SchedulesAll(codec: Codec, queuePath: string, jobs: seq<Job>, fates: seq<Fate>,
                               before: Tasks, tasks: Tasks, results: seq<EnqueueResult>)
    requires |jobs| == |fates| == |results|
  {
    && (forall k :: k in before ==> k in tasks && tasks[k] == before[k])
    && (forall k :: k in tasks && k !in before ==>
          exists i :: 0 <= i < |jobs| && k == queuePath + "/tasks/" + jobs[i].id
                      && Creates(codec, queuePath, jobs[i], fates[i], before))
    && forall i :: 0 <= i < |jobs| ==>
         && (results[i].error.None? <==> Creates(codec, queuePath, jobs[i], fates[i], before) && fates[i].Answered?)
         && (results[i].error.None? ==> results[i].jobId == jobs[i].id)
         && (Creates(codec, queuePath, jobs[i], fates[i], before) ==>
               var name := queuePath + "/tasks/" + jobs[i].id;
               name in tasks && tasks[name] == MarshalJob(codec, jobs[i]))
  }

  lemma FanOutSchedulesAll(codec: Codec, queuePath: string, jobs: seq<Job>, fates: seq<Fate>,
                           before: Tasks, tasks: Tasks, results: seq<EnqueueResult>)
    requires |jobs| == |fates| == |results|
    requires forall i :: 0 <= i < |jobs| ==> results[i] == Outcome(SlotFor(codec, queuePath, jobs[i], fates[i]), before)
    requires Fanout.TasksOf(SlotsFor(codec, queuePath, jobs, fates), before, tasks, Fan(tasks, results, |jobs|, {}))
    ensures SchedulesAll(codec, queuePath, jobs, fates, before, tasks, results)
  {
    var slots, f := SlotsFor(codec, queuePath, jobs, fates), Fan(tasks, results, |jobs|, {});
    forall k | k in tasks && k !in before
      ensures exists i :: 0 <= i < |jobs| && k == queuePath + "/tasks/" + jobs[i].id
                          && Creates(codec, queuePath, jobs[i], fates[i], before)
    {
      assert Fanout.MadeBy(slots, f, k);
      var i :| 0 <= i < |slots| && slots[i].Create? && Done(f, i) && slots[i].name == k;
      assert k == queuePath + "/tasks/" + jobs[i].id && Creates(codec, queuePath, jobs[i], fates[i], before);
    }
    forall i | 0 <= i < |jobs| && Creates(codec, queuePath, jobs[i], fates[i], before)
      ensures var name := queuePath + "/tasks/" + jobs[i].id;
              name in tasks && tasks[name] == MarshalJob(codec, jobs[i])
    {
      assert slots[i].Create? && Done(f, i);
    }
  }

  ghost predicate DistinctIds(jobs: seq<Job>) {
    forall i, j :: 0 <= i < |jobs| && 0 <= j < |jobs| && i != j ==> jobs[i].id != jobs[j].id
  }

  lemma TaskNameInjective(queuePath: string, a: string, b: string)
    requires TaskName(queuePath, a) == TaskName(queuePath, b)
    ensures a == b
  {
    var n := |queuePath + "/tasks/"|;
    assert a == TaskName(queuePath, a)[n..] == TaskName(queuePath, b)[n..] == b;
  }

  class CloudTasksScheduler {
    const codec: Codec
    const queuePath: string
    var tasks: Tasks

    constructor (codec: Codec, queuePath: string)
      ensures this.codec == codec && this.queuePath == queuePath && tasks == map[]
    {
      this.codec, this.queuePath, tasks := codec, queuePath, map[];
    }

    method Schedule(job: Job, fate: Fate) returns (error: Option<string>)
      modifies this
      ensures error.None? <==> Creates(codec, queuePath, job, fate, old(tasks)) && fate.Answered?
      ensures tasks == if Creates(codec, queuePath, job, fate, old(tasks)) then
                         old(tasks)[queuePath + "/tasks/" + job.id := MarshalJob(codec, job)]
                       else old(tasks)
      ensures error == Outcome(SlotFor(codec, queuePath, job, fate), old(tasks)).error
      ensures tasks == Effect(SlotFor(codec, queuePath, job, fate), old(tasks))
    {
      var data := MarshalJob(codec, job);
      if |data| > MAX_TASK_BODY {
        return Some(TOO_LARGE);
      }
      var taskName := TaskName(queuePath, job.id);
      if fate.Unreached? {
        return Some(UNREACHABLE);
      }
      if taskName in tasks {
        return Some(TASK_EXISTS);
      }
      tasks := tasks[taskName := data];
      if fate.AnswerLost? {
        return Some(REPLY_LOST);
      }
      error := None;
    }

    /**
     * One goroutine per job. The outcome is that of some order of the goroutines, and with
     * distinct identifiers it is what Schedule would report for each job alone.
     */
    method ScheduleBulk(jobs: seq<Job>, fates: seq<Fate>) returns (results: seq<EnqueueResult>, ghost moves: seq<Move>)
      requires |fates| == |jobs|
      modifies this
      ensures |results| == |jobs|
      ensures var slots := SlotsFor(codec, queuePath, jobs, fates);
              Exec(slots, Start(|jobs|, old(tasks)), moves) == Some(Fan(tasks, results, |jobs|, {}))
      ensures DistinctIds(jobs) ==> SchedulesAll(codec, queuePath, jobs, fates, old(tasks), tasks, results)
      ensures DistinctIds(jobs) ==>
                forall i :: 0 <= i < |jobs| ==>
                  results[i] == Outcome(SlotFor(codec, queuePath, jobs[i], fates[i]), old(tasks))
      ensures DistinctIds(jobs) ==>
                var slots := SlotsFor(codec, queuePath, jobs, fates);
                Fanout.TasksOf(slots, old(tasks), tasks, Fan(tasks, results, |jobs|, {}))
    {
      var slots := SlotsFor(codec, queuePath, jobs, fates);
      results, tasks, moves := FanOut(slots, tasks);
      if DistinctIds(jobs) {
        DistinctIdsDoNotClash(codec, queuePath, jobs, fates, old(tasks));
        FanoutIsPointwise(slots, old(tasks), moves);
        FanOutSchedulesAll(codec, queuePath, jobs, fates, old(tasks), tasks, results);
      }
    }
  }

  lemma DistinctIdsDoNotClash(codec: Codec, queuePath: string, jobs: seq<Job>, fates: seq<Fate>, tasks: Tasks)
    requires |fates| == |jobs| && DistinctIds(jobs)
    ensures NoClash(SlotsFor(codec, queuePath, jobs, fates), tasks)
  {
    var slots := SlotsFor(codec, queuePath, jobs, fates);
    forall i, j | 0 <= i < |slots| && 0 <= j < |slots| && i != j && SameName(slots[i], slots[j])
      ensures false
    {
      TaskNameInjective(queuePath, jobs[i].id, jobs[j].id);
    }
  }

  // ---------- the size bound ----------

  /** Every pending task is small enough for the task service. */
  ghost predicate BodiesFit(tasks: Tasks) {
    forall k :: k in tasks ==> |tasks[k]| <= MAX_TASK_BODY
  }

  lemma ScheduleKeepsBodiesFit(codec: Codec, queuePath: string, job: Job, fate: Fate, tasks: Tasks)
    requires BodiesFit(tasks)
    ensures BodiesFit(Effect(SlotFor(codec, queuePath, job, fate), tasks))
  {
  }

  /**
   * Above 72960 bytes of payload a job is never scheduled, although the service admits up to
   * 1048576 bytes for immediate jobs: three bytes of payload take four of the task body.
   */
  lemma LargePayloadIsRefused(codec: Codec, queuePath: string, job: Job, fate: Fate, tasks: Tasks)
    requires Lawful(codec) && |job.payload| > 72960
    ensures Outcome(SlotFor(codec, queuePath, job, fate), tasks).error == Some(TOO_LARGE)
    ensures Effect(SlotFor(codec, queuePath, job, fate), tasks) == tasks
  {
  }
}
