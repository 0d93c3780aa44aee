/** The running service: the server and the callback handler on one backend and one scheduler. */
module Service {
  import opened Wrappers
  import opened Jobs
  import opened Fanout
  import opened Delivery
  import CloudTasks
  import PubSub
  import Server
  import TaskCodec

  function Publications(jobs: seq<Job>, messages: seq<PubSub.Message>): (ps: seq<Publication>)
    requires |jobs| == |messages|
    ensures |ps| == |jobs| && Messages(ps) == messages
  {
    seq(|jobs|, i requires 0 <= i < |jobs| => Publication(jobs[i], messages[i]))
  }

  lemma PublicationsGrow(jobs: seq<Job>, messages: seq<PubSub.Message>, job: Job, more: seq<PubSub.Message>)
    requires |jobs| == |messages|
    ensures Publications(jobs + seq(|more|, _ => job), messages + more)
         == Publications(jobs, messages) + seq(|more|, i requires 0 <= i < |more| => Publication(job, more[i]))
  {
  }

  class Deployment {
    const handler: CallbackHandler
    const scheduler: CloudTasks.CloudTasksScheduler
    ghost var origins: seq<Job>
    ghost var accepted: set<Job>
    ghost var submitted: set<Job>

    ghost predicate Valid()
      reads this, handler.backend
    {
      |origins| == |handler.backend.published| && handler.codec == scheduler.codec
    }

    function Setting(): World
      reads handler.backend
    {
      World(handler.backend.topics, handler.backend.marshal, scheduler.codec, scheduler.queuePath)
    }

    /** The objects as a state of the delivery protocol. */
    ghost function View(): State
      requires Valid()
      reads this, handler.backend, scheduler
    {
      State(scheduler.tasks, Publications(origins, handler.backend.published), accepted, submitted)
    }

    constructor (backend: PubSub.PubSubBackend, scheduler: CloudTasks.CloudTasksScheduler)
      requires backend.published == [] && scheduler.tasks == map[]
      ensures handler.backend == backend && this.scheduler == scheduler
      ensures Valid() && View() == EMPTY
    {
      this.handler := new CallbackHandler(backend, scheduler.codec);
      this.scheduler := scheduler;
      origins, accepted, submitted := [], {}, {};
    }

    /** Calls the backend, and keeps account of the job a message is made from. */
    method PublishNow(job: Job, publish: PubSub.Fate) returns (error: Option<string>)
      requires Valid()
      modifies this`origins, handler.backend`published
      ensures Valid() && Setting() == old(Setting())
      ensures View() == old(View()).(published := old(View()).published + Publish(Setting(), job, job.runAt, publish))
      ensures error == PubSub.ErrorOf(PrepareJob(Setting(), job), publish)
    {
      ghost var more := PubSub.Emitted(PrepareJob(Setting(), job), publish);
      error := handler.backend.Enqueue(job, publish);
      assert At(job, job.runAt) == job;
      PublicationsGrow(origins, old(handler.backend.published), job, more);
      origins := origins + seq(|more|, _ => job);
    }

    /** Calls the service that a job goes to, and keeps account of what that means. */
    method HandOver(job: Job, deferred: bool, publish: PubSub.Fate, create: CloudTasks.Fate)
      returns (error: Option<string>)
      requires Valid()
      modifies this, handler.backend`published, scheduler
      ensures Valid() && Setting() == old(Setting())
      ensures View() == AfterSubmit(Setting(), old(View()), job, deferred, publish, create)
      ensures error == SubmitError(Setting(), old(scheduler.tasks), job, deferred, publish, create)
    {
      if deferred {
        error := scheduler.Schedule(job, create);
      } else {
        error := PublishNow(job, publish);
      }
      submitted := submitted + {job};
      accepted := if error.None? then accepted + {job} else accepted;
    }

    /**
     * One request: the server decides, the job goes to the real service, and the server is
     * told what that service answers.
     */
    method Submit(sub: Submission) returns (reply: Server.Reply)
      requires Valid()
      modifies this, handler.backend`published, scheduler
      ensures Valid() && Setting() == old(Setting())
      ensures Step(Setting(), old(View()), Label.Submit(sub), View())
      ensures reply == Server.ReplyTo(sub.req, DecisionOn(sub), AnswerTo(Setting(), old(View()), sub))
    {
      var w, tasks := Setting(), scheduler.tasks;
      var svc := Server.Services(
        job => AsServiceError(SubmitError(w, tasks, job, false, sub.publish, sub.create)),
        job => AsServiceError(SubmitError(w, tasks, job, true, sub.publish, sub.create)),
        _ => [], _ => []);
      var enqueued, scheduled;
      reply, enqueued, scheduled := Server.Enqueue(sub.env, svc, sub.req, sub.rd);
      if enqueued != [] {
        var error := HandOver(enqueued[0], false, sub.publish, sub.create);
        assert AsServiceError(error) == svc.enqueue(enqueued[0]);
      } else if scheduled != [] {
        var error := HandOver(scheduled[0], true, sub.publish, sub.create);
        assert AsServiceError(error) == svc.schedule(scheduled[0]);
      }
    }

    /** The task service calls back for a task, and drops it if the answer 200 arrives. */
    method Callback(name: string, now: int, publish: PubSub.Fate, answered: bool) returns (status: int)
      requires Valid() && name in scheduler.tasks
      modifies this, handler.backend`published, scheduler
      ensures Valid() && Setting() == old(Setting())
      ensures Step(Setting(), old(View()), Fire(name, now, publish, answered), View())
    {
      ghost var job := TaskCodec.UnmarshalJob(scheduler.codec, scheduler.tasks[name]);
      status := handler.HandleEnqueueCallback(Some(scheduler.tasks[name]), now, publish);
      if job.Some? {
        ghost var more := PubSub.Emitted(PrepareJob(Setting(), At(job.value, now)), publish);
        PublicationsGrow(origins, old(handler.backend.published), job.value, more);
        origins := origins + seq(|more|, _ => job.value);
      }
      if status == 200 && answered {
        scheduler.tasks := scheduler.tasks - {name};
      }
    }
  }
}
