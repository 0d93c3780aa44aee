/**
 * From request to published message: an admitted job is published at once or parked as a
 * task, whose callback decodes it and publishes it. Callbacks are repeated until one is
 * answered with 200, and any of the outside services may fail or lose its answer.
 */
module Delivery {
  import opened Wrappers
  import opened Jobs
  import opened Fanout
  import opened TaskCodec
  import opened PubSub
  import CloudTasks
  import JobId
  import Records
  import Server

  /** What is fixed during a run: topics, task queue and the library's conversions. */
  datatype World = World(topics: Topics, marshal: Job -> Option<seq<byte>>, codec: Codec, queuePath: string)

  /** A message, and the job it was made from as that job was submitted. */
  datatype Publication = Publication(job: Job, message: Message)

  datatype State = State(tasks: Tasks, published: seq<Publication>, accepted: set<Job>, submitted: set<Job>)

  /** One request, its call, what is read while it is handled, and how its service call would end. */
  datatype Submission = Submission(env: Server.Env, req: Server.Request, rd: Server.Reading,
                                   publish: PubSub.Fate, create: CloudTasks.Fate)

  datatype Label =
    | Submit(sub: Submission)
    | Fire(name: string, now: int, publish: PubSub.Fate, answered: bool)

  const EMPTY := State(map[], [], {}, {})

  function PrepareJob(w: World, job: Job): Prepared {
    Prepare(w.topics, w.marshal, job)
  }

  function NameOf(w: World, job: Job): string {
    CloudTasks.TaskName(w.queuePath, job.id)
  }

  function SlotOf(w: World, job: Job, create: CloudTasks.Fate): Slot {
    CloudTasks.SlotFor(w.codec, w.queuePath, job, create)
  }

  function At(job: Job, runAt: int): Job {
    job.(runAt := runAt)
  }

  /** What enqueuing the job with this run time adds to the published messages. */
  function Publish(w: World, job: Job, runAt: int, publish: PubSub.Fate): seq<Publication> {
    var messages := Emitted(PrepareJob(w, At(job, runAt)), publish);
    if messages == [] then [] else [Publication(job, messages[0])]
  }

  function Messages(ps: seq<Publication>): seq<Message> {
    seq(|ps|, i requires 0 <= i < |ps| => ps[i].message)
  }

  /** The error, if any, that the job's service reports. */
  function SubmitError(w: World, tasks: Tasks, job: Job, deferred: bool,
                       publish: PubSub.Fate, create: CloudTasks.Fate): Option<string> {
    if deferred then Outcome(SlotOf(w, job, create), tasks).error else ErrorOf(PrepareJob(w, job), publish)
  }

  /** One admitted job goes to its service and is accepted unless the service reports an error. */
  function AfterSubmit(w: World, s: State, job: Job, deferred: bool,
                       publish: PubSub.Fate, create: CloudTasks.Fate): State {
    State(if deferred then Effect(SlotOf(w, job, create), s.tasks) else s.tasks,
          if deferred then s.published else s.published + Publish(w, job, job.runAt, publish),
          if SubmitError(w, s.tasks, job, deferred, publish, create).None? then s.accepted + {job} else s.accepted,
          s.submitted + {job})
  }

  function DecisionOn(sub: Submission): Server.Decision {
    Server.Decide(sub.env, sub.req, sub.rd)
  }

  function AfterSubmission(w: World, s: State, sub: Submission): State {
    match DecisionOn(sub)
    case Refused(_) => s
    case Admitted(job, _, deferred) => AfterSubmit(w, s, job, deferred, sub.publish, sub.create)
  }

  /** What the server is told by the service it calls for this request, in this state. */
  function AnswerTo(w: World, s: State, sub: Submission): Option<Server.ServiceError> {
    match DecisionOn(sub)
    case Refused(_) => None
    case Admitted(job, _, deferred) =>
      AsServiceError(SubmitError(w, s.tasks, job, deferred, sub.publish, sub.create))
  }

  function AsServiceError(error: Option<string>): Option<Server.ServiceError> {
    match error
    case None => None
    case Some(text) => Some(Server.ServiceError(text, false))
  }

  /** One callback; the task goes away only if the answer 200 arrives. */
  function AfterFire(w: World, s: State, name: string, now: int, publish: PubSub.Fate, answered: bool): State
    requires name in s.tasks
  {
    match UnmarshalJob(w.codec, s.tasks[name])
    case None => s
    case Some(job) =>
      var removed := ErrorOf(PrepareJob(w, At(job, now)), publish).None? && answered;
      s.(published := s.published + Publish(w, job, now, publish),
         tasks := if removed then s.tasks - {name} else s.tasks)
  }

  predicate Step(w: World, s: State, l: Label, s': State) {
    match l
    case Submit(sub) => s' == AfterSubmission(w, s, sub)
    case Fire(name, now, publish, answered) => name in s.tasks && s' == AfterFire(w, s, name, now, publish, answered)
  }

  // ---------- the callback handler ----------

  class CallbackHandler {
    const backend: PubSubBackend
    const codec: Codec

    constructor (backend: PubSubBackend, codec: Codec)
      ensures this.backend == backend && this.codec == codec
    {
      this.backend, this.codec := backend, codec;
    }

    /** body is None if it could not be read; the status tells the task service whether to retry. */
    method HandleEnqueueCallback(body: Option<seq<byte>>, now: int, publish: PubSub.Fate) returns (status: int)
      modifies backend`published
      ensures var job := if body.None? then None else UnmarshalJob(codec, body.value);
              match job
              case None => status == 400 && backend.published == old(backend.published)
              case Some(j) =>
                var prepared := Prepare(backend.topics, backend.marshal, At(j, now));
                && backend.published == old(backend.published) + Emitted(prepared, publish)
                && status == (if ErrorOf(prepared, publish).None? then 200 else 500)
      ensures |old(backend.published)| <= |backend.published|
      ensures backend.published[..|old(backend.published)|] == old(backend.published)
      ensures var added := backend.published[|old(backend.published)|..];
              var decoded := if body.None? then None else UnmarshalJob(codec, body.value);
              if decoded.None? then status == 400 && added == []
              else
                && status in {200, 500}
                && Sends(backend.topics, backend.marshal, decoded.value.(runAt := now), publish, added, status == 500)
    {
      if body.None? {
        return 400;
      }
      var decoded := UnmarshalJob(codec, body.value);
      if decoded.None? {
        return 400;
      }
      var job := decoded.value;
      job := job.(runAt := now);
      var error := backend.Enqueue(job, publish);
      if error.Some? {
        return 500;
      }
      status := 200;
    }
  }

  // ---------- no accepted job is lost ----------

  /** The message is what the job becomes with some run time. */
  ghost predicate Shows(w: World, p: Publication) {
    exists t: int :: PrepareJob(w, At(p.job, t)) == Ready(p.message)
  }

  /** A message made from this very job, at some run time, has been published. */
  ghost predicate Delivered(w: World, s: State, job: Job) {
    exists p :: p in s.published && p.job == job && Shows(w, p)
  }

  /** A task of the job's name holds the job as its body. */
  predicate Parked(w: World, s: State, job: Job) {
    NameOf(w, job) in s.tasks && s.tasks[NameOf(w, job)] == MarshalJob(w.codec, job)
  }

  ghost predicate Safe(w: World, s: State, job: Job) {
    Delivered(w, s, job) || Parked(w, s, job)
  }

  /** The task k was made from a submitted job. */
  ghost predicate TaskMade(w: World, s: State, k: string)
    requires k in s.tasks
  {
    exists job :: job in s.submitted && k == NameOf(w, job) && s.tasks[k] == MarshalJob(w.codec, job)
  }

  ghost predicate TasksMade(w: World, s: State) {
    forall k :: k in s.tasks ==> TaskMade(w, s, k)
  }

  ghost predicate PublicationsMade(w: World, s: State) {
    forall p :: p in s.published ==> p.job in s.submitted && Shows(w, p)
  }

  ghost predicate Inv(w: World, s: State) {
    && (forall job :: job in s.accepted ==> Safe(w, s, job))
    && TasksMade(w, s)
    && PublicationsMade(w, s)
    && CloudTasks.BodiesFit(s.tasks)
  }

  lemma PublishShows(w: World, job: Job, runAt: int, publish: PubSub.Fate)
    ensures forall p :: p in Publish(w, job, runAt, publish) ==> p.job == job && Shows(w, p)
    ensures |Publish(w, job, runAt, publish)|
         == (if PrepareJob(w, At(job, runAt)).Ready? && !publish.Dropped? then 1 else 0)
  {
  }

  /** A task's body, when it can be read at all, is exactly a job that was submitted. */
  lemma BodyIsTheJob(w: World, s: State, k: string)
    requires Lawful(w.codec) && k in s.tasks && TaskMade(w, s, k)
    ensures var body := UnmarshalJob(w.codec, s.tasks[k]);
            body.Some? ==> body.value in s.submitted && NameOf(w, body.value) == k
  {
  }

  lemma SubmitKeepsSafe(w: World, s: State, job: Job, deferred: bool,
                        publish: PubSub.Fate, create: CloudTasks.Fate, other: Job)
    requires Safe(w, s, other)
    ensures Safe(w, AfterSubmit(w, s, job, deferred, publish, create), other)
  {
  }

  lemma AcceptedIsSafe(w: World, s: State, job: Job, deferred: bool, publish: PubSub.Fate, create: CloudTasks.Fate)
    requires SubmitError(w, s.tasks, job, deferred, publish, create).None?
    ensures Safe(w, AfterSubmit(w, s, job, deferred, publish, create), job)
  {
  }

  lemma FireKeepsSafe(w: World, s: State, name: string, now: int, publish: PubSub.Fate, answered: bool, job: Job)
    requires Lawful(w.codec) && name in s.tasks && Safe(w, s, job)
    ensures Safe(w, AfterFire(w, s, name, now, publish, answered), job)
  {
  }

  lemma SubmitKeepsMade(w: World, s: State, job: Job, deferred: bool, publish: PubSub.Fate, create: CloudTasks.Fate)
    requires TasksMade(w, s) && PublicationsMade(w, s)
    ensures var s' := AfterSubmit(w, s, job, deferred, publish, create); TasksMade(w, s') && PublicationsMade(w, s')
  {
  }

  lemma SubmitKeepsInv(w: World, s: State, job: Job, deferred: bool, publish: PubSub.Fate, create: CloudTasks.Fate)
    requires Inv(w, s)
    ensures Inv(w, AfterSubmit(w, s, job, deferred, publish, create))
  {
    var s' := AfterSubmit(w, s, job, deferred, publish, create);
    forall other | other in s'.accepted
      ensures Safe(w, s', other)
    {
      if other in s.accepted {
        SubmitKeepsSafe(w, s, job, deferred, publish, create, other);
      } else {
        AcceptedIsSafe(w, s, job, deferred, publish, create);
      }
    }
    SubmitKeepsMade(w, s, job, deferred, publish, create);
    CloudTasks.ScheduleKeepsBodiesFit(w.codec, w.queuePath, job, create, s.tasks);
  }

  lemma FireKeepsMade(w: World, s: State, name: string, now: int, publish: PubSub.Fate, answered: bool)
    requires Lawful(w.codec) && TasksMade(w, s) && PublicationsMade(w, s) && name in s.tasks
    ensures var s' := AfterFire(w, s, name, now, publish, answered); TasksMade(w, s') && PublicationsMade(w, s')
  {
    var s' := AfterFire(w, s, name, now, publish, answered);
    forall k | k in s'.tasks
      ensures TaskMade(w, s', k)
    {
      assert TaskMade(w, s, k);
    }
    BodyIsTheJob(w, s, name);
    var body := UnmarshalJob(w.codec, s.tasks[name]);
    if body.Some? {
      PublishShows(w, body.value, now, publish);
    }
  }

  lemma FireKeepsInv(w: World, s: State, name: string, now: int, publish: PubSub.Fate, answered: bool)
    requires Lawful(w.codec) && Inv(w, s) && name in s.tasks
    ensures Inv(w, AfterFire(w, s, name, now, publish, answered))
  {
    var s' := AfterFire(w, s, name, now, publish, answered);
    forall job | job in s'.accepted
      ensures Safe(w, s', job)
    {
      FireKeepsSafe(w, s, name, now, publish, answered, job);
    }
    FireKeepsMade(w, s, name, now, publish, answered);
  }

  lemma StepKeepsInv(w: World, s: State, l: Label, s': State)
    requires Lawful(w.codec) && Inv(w, s) && Step(w, s, l, s')
    ensures Inv(w, s')
  {
    match l
    case Submit(sub) =>
      var d := DecisionOn(sub);
      if d.Admitted? {
        SubmitKeepsInv(w, s, d.job, d.deferred, sub.publish, sub.create);
      }
    case Fire(name, now, publish, answered) =>
      FireKeepsInv(w, s, name, now, publish, answered);
  }

  lemma StepKeepsAccepted(w: World, s: State, l: Label, s': State)
    requires Step(w, s, l, s')
    ensures s.accepted <= s'.accepted
  {
  }

  // ---------- whole runs ----------

  predicate IsRun(w: World, states: seq<State>, labels: seq<Label>) {
    && |states| == |labels| + 1
    && states[0] == EMPTY
    && forall i :: 0 <= i < |labels| ==> Step(w, states[i], labels[i], states[i + 1])
  }

  lemma {:induction false} RunInvariant(w: World, states: seq<State>, labels: seq<Label>, i: nat)
    requires Lawful(w.codec) && IsRun(w, states, labels) && i < |states|
    ensures Inv(w, states[i])
  {
    if i > 0 {
      RunInvariant(w, states, labels, i - 1);
      StepKeepsInv(w, states[i - 1], labels[i - 1], states[i]);
    }
  }

  lemma {:induction false} AcceptedGrows(w: World, states: seq<State>, labels: seq<Label>, i: nat, j: nat)
    requires IsRun(w, states, labels) && i <= j < |states|
    ensures states[i].accepted <= states[j].accepted
  {
    if i < j {
      AcceptedGrows(w, states, labels, i, j - 1);
      StepKeepsAccepted(w, states[j - 1], labels[j - 1], states[j]);
    }
  }

  /**
   * A job that was accepted has, ever after, been published or has a pending task; and that
   * task's body decodes to the job itself, exactly if its instants have four-digit years.
   */
  lemma NoAcceptedJobIsLost(w: World, states: seq<State>, labels: seq<Label>, i: nat, j: nat, job: Job)
    requires Lawful(w.codec) && IsRun(w, states, labels) && i <= j < |states|
    requires job in states[i].accepted
    ensures || Delivered(w, states[j], job)
            || (&& NameOf(w, job) in states[j].tasks
                && UnmarshalJob(w.codec, states[j].tasks[NameOf(w, job)])
                     == if Representable(job.runAt) && Representable(job.createdAt) then Some(job) else None)
  {
    AcceptedGrows(w, states, labels, i, j);
    RunInvariant(w, states, labels, j);
    UnmarshalMarshal(w.codec, job);
  }

  /** A task leaves only in a step that publishes the job its body decodes to. */
  lemma TaskLeavesOnlyWhenPublished(w: World, s: State, l: Label, s': State, name: string)
    requires Step(w, s, l, s') && name in s.tasks && name !in s'.tasks
    ensures l.Fire? && l.name == name
    ensures UnmarshalJob(w.codec, s.tasks[name]).Some?
    ensures var job := UnmarshalJob(w.codec, s.tasks[name]).value;
            PrepareJob(w, At(job, l.now)).Ready?
            && s'.published == s.published + [Publication(job, PrepareJob(w, At(job, l.now)).message)]
  {
  }

  /** Every message was made from a job that was submitted, with only its run time replaced. */
  lemma NothingElseIsPublished(w: World, states: seq<State>, labels: seq<Label>, i: nat, p: Publication)
    requires Lawful(w.codec) && IsRun(w, states, labels) && i < |states| && p in states[i].published
    ensures p.job in states[i].submitted && Shows(w, p)
  {
    RunInvariant(w, states, labels, i);
  }

  /** Deferral changes neither the topic of a job nor its shadow mark. */
  lemma DeferralKeepsRoute(w: World, p: Publication, direct: Message)
    requires Shows(w, p) && PrepareJob(w, p.job) == Ready(direct)
    ensures p.message.topic == direct.topic && p.message.shadow == direct.shadow
  {
  }

  /** Every pending task fits the task service, and so bounds the payload of its job. */
  lemma PendingTasksAreSmall(w: World, states: seq<State>, labels: seq<Label>, i: nat, name: string)
    requires Lawful(w.codec) && IsRun(w, states, labels) && i < |states| && name in states[i].tasks
    ensures |states[i].tasks[name]| <= 97280
    ensures exists job :: job in states[i].submitted && name == NameOf(w, job)
                          && states[i].tasks[name] == MarshalJob(w.codec, job) && |job.payload| <= 72960
  {
    RunInvariant(w, states, labels, i);
    assert TaskMade(w, states[i], name);
    var job :| job in states[i].submitted && name == NameOf(w, job)
               && states[i].tasks[name] == MarshalJob(w.codec, job);
    BodyHoldsPayload(w.codec, job);
  }

  // ---------- every message and every task goes back to a request ----------

  /** The step made this message of this job, with the run time that it should have. */
  predicate Explains(w: World, l: Label, p: Publication) {
    && Routes(w.topics, p.job.priority, p.message.topic) && p.message.shadow == p.job.shadow
    && match l
       case Submit(sub) =>
         Server.MadeFrom(sub.env, sub.req, sub.rd, p.job) && w.marshal(p.job) == Some(p.message.data)
       case Fire(name, now, _, _) =>
         && name == w.queuePath + "/tasks/" + p.job.id
         && w.marshal(p.job.(runAt := now)) == Some(p.message.data)
  }

  /** The message of a job, published with this run time. */
  lemma PublishMeans(w: World, job: Job, runAt: int, publish: PubSub.Fate, p: Publication)
    requires p in Publish(w, job, runAt, publish)
    ensures p.job == job && w.marshal(job.(runAt := runAt)) == Some(p.message.data)
    ensures Routes(w.topics, job.priority, p.message.topic) && p.message.shadow == job.shadow
  {
    EmittedMeans(w.topics, w.marshal, At(job, runAt), publish);
  }

  lemma StepExplains(w: World, s: State, l: Label, s': State)
    requires Lawful(w.codec) && Inv(w, s) && Step(w, s, l, s')
    ensures s.published <= s'.published && |s'.published| <= |s.published| + 1
    ensures forall p :: p in s'.published[|s.published|..] ==> Explains(w, l, p)
  {
    match l
    case Submit(sub) =>
      Server.DecisionMeans(sub.env, sub.req, sub.rd);
      var d := DecisionOn(sub);
      if d.Admitted? && !d.deferred {
        assert d.job.(runAt := d.job.runAt) == d.job;
        forall p | p in Publish(w, d.job, d.job.runAt, sub.publish)
          ensures Explains(w, l, p)
        {
          PublishMeans(w, d.job, d.job.runAt, sub.publish, p);
        }
      }
    case Fire(name, now, publish, _) =>
      BodyIsTheJob(w, s, name);
      var job := UnmarshalJob(w.codec, s.tasks[name]);
      if job.Some? {
        forall p | p in Publish(w, job.value, now, publish)
          ensures Explains(w, l, p)
        {
          PublishMeans(w, job.value, now, publish, p);
        }
      }
  }

  /**
   * A message added by a callback is what its job becomes with that callback's clock reading,
   * one added by a request is what the request's job becomes with its own run time.
   */
  lemma {:induction false} EveryMessageIsExplained(w: World, states: seq<State>, labels: seq<Label>, i: nat, n: nat)
    returns (k: nat)
    requires Lawful(w.codec) && IsRun(w, states, labels) && i < |states| && n < |states[i].published|
    ensures k < i && Explains(w, labels[k], states[i].published[n])
    ensures |states[k].published| == n
  {
    assert i > 0;
    RunInvariant(w, states, labels, i - 1);
    StepExplains(w, states[i - 1], labels[i - 1], states[i]);
    if n < |states[i - 1].published| {
      k := EveryMessageIsExplained(w, states, labels, i - 1, n);
    } else {
      k := i - 1;
      assert states[i].published[n] in states[i].published[|states[i - 1].published|..];
    }
  }

  /** A submitted job is, field by field, that of some request of the run. */
  lemma {:induction false} EveryJobWasRequested(w: World, states: seq<State>, labels: seq<Label>, i: nat, job: Job)
    returns (k: nat)
    requires IsRun(w, states, labels) && i < |states| && job in states[i].submitted
    ensures k < i && labels[k].Submit?
    ensures var sub := labels[k].sub; Server.Valid(sub.env, sub.req) && Server.MadeFrom(sub.env, sub.req, sub.rd, job)
  {
    assert i > 0;
    if job in states[i - 1].submitted {
      k := EveryJobWasRequested(w, states, labels, i - 1, job);
    } else {
      k := i - 1;
      NewJobIsRequested(w, states[k], labels[k], states[i], job);
    }
  }

  lemma NewJobIsRequested(w: World, s: State, l: Label, s': State, job: Job)
    requires Step(w, s, l, s') && job in s'.submitted && job !in s.submitted
    ensures l.Submit? && Server.Valid(l.sub.env, l.sub.req) && Server.MadeFrom(l.sub.env, l.sub.req, l.sub.rd, job)
  {
    if l.Submit? {
      Server.DecisionMeans(l.sub.env, l.sub.req, l.sub.rd);
    }
  }

  /** So is the job of every published message. */
  lemma EveryMessageWasRequested(w: World, states: seq<State>, labels: seq<Label>, i: nat, p: Publication)
    returns (k: nat)
    requires Lawful(w.codec) && IsRun(w, states, labels) && i < |states| && p in states[i].published
    ensures k < i && labels[k].Submit?
    ensures Server.MadeFrom(labels[k].sub.env, labels[k].sub.req, labels[k].sub.rd, p.job)
  {
    NothingElseIsPublished(w, states, labels, i, p);
    k := EveryJobWasRequested(w, states, labels, i, p.job);
  }

  /** And so is what a pending task's body says, whether or not its instants can be read back. */
  lemma EveryTaskWasRequested(w: World, states: seq<State>, labels: seq<Label>, i: nat, name: string)
    returns (k: nat, job: Job)
    requires Lawful(w.codec) && IsRun(w, states, labels) && i < |states| && name in states[i].tasks
    ensures k < i && labels[k].Submit?
    ensures Server.MadeFrom(labels[k].sub.env, labels[k].sub.req, labels[k].sub.rd, job)
    ensures name == w.queuePath + "/tasks/" + job.id
    ensures var sj := w.codec.decode(states[i].tasks[name]); sj.Some? && Describes(w.codec, sj.value, job)
  {
    RunInvariant(w, states, labels, i);
    assert TaskMade(w, states[i], name);
    job :| job in states[i].submitted && name == NameOf(w, job) && states[i].tasks[name] == MarshalJob(w.codec, job);
    MarshalDescribes(w.codec, job);
    k := EveryJobWasRequested(w, states, labels, i, job);
  }

  /** When a callback removes its task: exactly if its job was published and both answers arrived. */
  lemma CallbackRemoves(w: World, s: State, name: string, now: int, publish: PubSub.Fate, answered: bool)
    requires name in s.tasks
    ensures var s', job := AfterFire(w, s, name, now, publish, answered), UnmarshalJob(w.codec, s.tasks[name]);
            && (name !in s'.tasks <==>
                  job.Some? && Publishable(w.topics, w.marshal, job.value.(runAt := now)) && publish.Acked? && answered)
            && (forall k :: k in s'.tasks ==> k in s.tasks && s'.tasks[k] == s.tasks[k])
            && (forall k :: k in s.tasks && k != name ==> k in s'.tasks)
  {
  }

  // ---------- tasks that can never be delivered ----------

  /**
   * A task whose body cannot be read back is answered with 400 each time: no callback changes
   * anything. By UnmarshalMarshal this happens exactly to jobs with an instant outside the
   * years 0 to 9999, which the server accepts.
   */
  lemma UnreadableTaskStays(w: World, s: State, l: Label, s': State, name: string)
    requires Step(w, s, l, s') && name in s.tasks && UnmarshalJob(w.codec, s.tasks[name]).None?
    ensures name in s'.tasks && s'.tasks[name] == s.tasks[name]
    ensures l.Fire? && l.name == name ==> s' == s
  {
  }

  lemma {:induction false} UnreadableTaskStaysForever(w: World, states: seq<State>, labels: seq<Label>,
                                                      i: nat, j: nat, name: string)
    requires IsRun(w, states, labels) && i <= j < |states|
    requires name in states[i].tasks && UnmarshalJob(w.codec, states[i].tasks[name]).None?
    ensures name in states[j].tasks && states[j].tasks[name] == states[i].tasks[name]
  {
    if i < j {
      UnreadableTaskStaysForever(w, states, labels, i, j - 1, name);
      UnreadableTaskStays(w, states[j - 1], labels[j - 1], states[j], name);
    }
  }

  /** When a callback of a job's task delivers the job: it must be readable and get published. */
  lemma CallbackDelivers(w: World, s: State, job: Job, now: int, publish: PubSub.Fate, answered: bool)
    requires Lawful(w.codec) && Parked(w, s, job) && !Delivered(w, s, job)
    ensures Delivered(w, AfterFire(w, s, NameOf(w, job), now, publish, answered), job) <==>
              && Representable(job.runAt) && Representable(job.createdAt)
              && PrepareJob(w, At(job, now)).Ready? && !publish.Dropped?
  {
  }

  /**
   * How such a task arises: the body of a deferred job that was accepted can be read exactly
   * if both its instants have four-digit years, and nobody checks that before accepting it.
   */
  lemma UnreadableTaskArises(w: World, s: State, sub: Submission)
    requires Lawful(w.codec)
    requires DecisionOn(sub).Admitted? && DecisionOn(sub).deferred && AnswerTo(w, s, sub).None?
    ensures var job, s' := DecisionOn(sub).job, AfterSubmission(w, s, sub);
            && job in s'.accepted && NameOf(w, job) in s'.tasks
            && (UnmarshalJob(w.codec, s'.tasks[NameOf(w, job)]).None? <==>
                  !Representable(job.runAt) || !Representable(job.createdAt))
  {
    UnmarshalMarshal(w.codec, DecisionOn(sub).job);
  }

  /** A request to run a job at the first instant of the year 10000, to a server with default settings. */
  function FarRequest(prims: JobId.Primitives): Submission {
    var config := Server.Config(1048576, MEDIUM, 10, 60 * NANOS, false);
    var env := Server.Env(config, false, true, _ => None, prims, false);
    Submission(env, Server.Request("p", "t", [], Some(253_402_300_800 * NANOS), "", ""),
               Server.Reading(Records.EMPTY, Records.EMPTY, 0, [0, 0, 0, 0], 0, 0, 0), Acked, CloudTasks.Answered)
  }

  /**
   * The run in which that request is the first: if the task service takes the task, the job
   * is accepted, and its task can never be read.
   */
  lemma FarRequestIsStuck(w: World, prims: JobId.Primitives)
    requires Lawful(w.codec)
    requires |MarshalJob(w.codec, DecisionOn(FarRequest(prims)).job)| <= CloudTasks.MAX_TASK_BODY
    ensures var sub := FarRequest(prims);
            var job, s := DecisionOn(sub).job, AfterSubmission(w, EMPTY, sub);
            && IsRun(w, [EMPTY, s], [Submit(sub)])
            && job in s.accepted && NameOf(w, job) in s.tasks
            && UnmarshalJob(w.codec, s.tasks[NameOf(w, job)]).None?
  {
    UnreadableTaskArises(w, EMPTY, FarRequest(prims));
  }

  // ---------- the server on these services ----------

  /** The caller is told a job identifier exactly when the job joins the accepted ones. */
  lemma AcceptedMeansAccepted(w: World, s: State, sub: Submission)
    ensures var d, s' := DecisionOn(sub), AfterSubmission(w, s, sub);
            var reply := Server.ReplyTo(sub.req, d, AnswerTo(w, s, sub));
            if reply.Accepted? then d.Admitted? && reply.jobId == d.job.id && s'.accepted == s.accepted + {d.job}
            else s'.accepted == s.accepted
  {
  }

  /** Whatever the backend's bulk call returns reports for each job what its single call would. */
  lemma BackendIsPointwise(w: World, jobs: seq<Job>, fates: seq<PubSub.Fate>, results: seq<EnqueueResult>,
                           single: Job -> Option<Server.ServiceError>)
    requires |jobs| == |fates| && results == ResultsOf(w.topics, w.marshal, jobs, fates)
    requires forall i :: 0 <= i < |jobs| ==>
               single(jobs[i]) == AsServiceError(ErrorOf(PrepareJob(w, jobs[i]), fates[i]))
    ensures Server.PointwiseAnswers(results, jobs, single)
  {
  }

  /**
   * Whatever the scheduler's bulk call returns, for jobs with distinct identifiers and
   * goroutines in any order, reports for each job what its single call would.
   */
  lemma SchedulerIsPointwise(w: World, jobs: seq<Job>, fates: seq<CloudTasks.Fate>, before: Tasks,
                             moves: seq<Move>, after: Tasks, results: seq<EnqueueResult>,
                             single: Job -> Option<Server.ServiceError>)
    requires |jobs| == |fates| && CloudTasks.DistinctIds(jobs)
    requires Exec(CloudTasks.SlotsFor(w.codec, w.queuePath, jobs, fates), Start(|jobs|, before), moves)
               == Some(Fan(after, results, |jobs|, {}))
    requires forall i :: 0 <= i < |jobs| ==>
               single(jobs[i]) == AsServiceError(Outcome(SlotOf(w, jobs[i], fates[i]), before).error)
    ensures Server.PointwiseAnswers(results, jobs, single)
  {
    CloudTasks.DistinctIdsDoNotClash(w.codec, w.queuePath, jobs, fates, before);
    FanoutIsPointwise(CloudTasks.SlotsFor(w.codec, w.queuePath, jobs, fates), before, moves);
  }
}
