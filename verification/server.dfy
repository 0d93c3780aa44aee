/** The gRPC server: enqueueing one job, and enqueueing a batch in one call. */
module Server {
  import opened Wrappers
  import opened Jobs
  import opened Records
  import JobId

  datatype Request = Request(producerId: string, jobType: string, payload: seq<byte>, runAt: Option<int>,
                             traceId: string, correlationId: string)

  datatype Config = Config(maxPayloadSize: int, defaultQueue: Priority, defaultMaxRetries: int,
                           scheduleThreshold: int, legacyPayloadQueueRouting: bool)

  /**
   * What is fixed during one call: shadow is read from its metadata. legacyQueue gives the
   * "queue" field of a JSON payload ("" if absent), None if it does not parse.
   */
  datatype Env = Env(config: Config, hasStore: bool, hasScheduler: bool,
                     legacyQueue: seq<byte> -> Option<string>, prims: JobId.Primitives, shadow: bool)

  type Random = r: seq<byte> | |r| == 4 witness [0, 0, 0, 0]

  /**
   * What the store holds, at the two lookups, and what the clock and the random source say
   * while one request is handled, reading by reading.
   */
  datatype Reading = Reading(atProducer: Registry, atJobType: Registry, millis: int, random: Random,
                             runNow: int, createdNow: int, routeNow: int)

  datatype Warning = UnregisteredProducer(producerId: string) | UnregisteredJobType(jobType: string, producerId: string)

  datatype Invalidity = NoProducerId | NoJobType | PayloadTooLarge

  datatype ServiceError = ServiceError(text: string, unavailable: bool)

  /** How the queue backend and the scheduler answer; None is success. */
  datatype Services = Services(enqueue: Job -> Option<ServiceError>, schedule: Job -> Option<ServiceError>,
                               enqueueBulk: seq<Job> -> seq<EnqueueResult>,
                               scheduleBulk: seq<Job> -> seq<EnqueueResult>)

  datatype Reply =
    | Accepted(jobId: string, warnings: seq<Warning>, correlationId: string)
    | InvalidArgument(why: Invalidity)
    | ScheduleFailed
    | QueueUnavailable
    | EnqueueFailed

  datatype BulkResult = BulkResult(index: int, jobId: string, error: string, errorMessages: seq<Warning>,
                                   correlationId: string, reason: string)

  // ---------- what happens to one request ----------

  function QueuePriority(q: int): Priority {
    match q
    case 1 => IMMEDIATE
    case 2 => HIGH
    case 3 => MEDIUM
    case 4 => LOW
    case _ => MEDIUM
  }

  function LegacyPriority(env: Env, payload: seq<byte>): Option<Priority> {
    match env.legacyQueue(payload)
    case None => None
    case Some(name) =>
      if name == "immediate" then Some(IMMEDIATE)
      else if name == "high" then Some(HIGH)
      else if name == "medium" then Some(MEDIUM)
      else if name == "low" then Some(LOW)
      else None
  }

  datatype Routing = Routing(priority: Priority, maxRetries: int, warning: Option<Warning>)

  function JobTypeConfig(env: Env, store: Registry, producerId: string, jobType: string): Routing {
    if !env.hasStore then Routing(env.config.defaultQueue, env.config.defaultMaxRetries, None)
    else match GetJobType(store, producerId, jobType)
         case None =>
           var warning := UnregisteredJobType(jobType, producerId);
           Routing(env.config.defaultQueue, env.config.defaultMaxRetries, Some(warning))
         case Some(t) => Routing(QueuePriority(t.queue), t.maxRetries, None)
  }

  function RoutingConfig(env: Env, store: Registry, producerId: string, jobType: string, payload: seq<byte>): Routing {
    var legacy := LegacyPriority(env, payload);
    if env.config.legacyPayloadQueueRouting && legacy.Some? then
      Routing(legacy.value, env.config.defaultMaxRetries, None)
    else
      JobTypeConfig(env, store, producerId, jobType)
  }

  function RoutingOf(env: Env, req: Request, rd: Reading): Routing {
    RoutingConfig(env, rd.atJobType, req.producerId, req.jobType, req.payload)
  }

  function WarningsFor(env: Env, req: Request, rd: Reading): seq<Warning> {
    var routing := RoutingOf(env, req, rd);
    var unknown := env.hasStore && GetProducer(rd.atProducer, req.producerId).None?;
    (if unknown then [UnregisteredProducer(req.producerId)] else [])
    + (if routing.warning.Some? then [routing.warning.value] else [])
  }

  /**
   * The caller is warned about the job type exactly if none was registered for that very pair,
   * unless the payload itself routes the job; and a registered one decides the routing.
   */
  lemma RoutingFollowsRegistry(env: Env, req: Request, rd: Reading)
    requires env.hasStore && WellKeyed(rd.atJobType) && Unshadowed(rd.atJobType, req.producerId)
    ensures var r := rd.atJobType;
            var routedByPayload := env.config.legacyPayloadQueueRouting && LegacyPriority(env, req.payload).Some?;
            && (UnregisteredJobType(req.jobType, req.producerId) in WarningsFor(env, req, rd) <==>
                  !routedByPayload && !exists t :: Registered(r, req.producerId, req.jobType, t))
            && forall t :: Registered(r, req.producerId, req.jobType, t) && !routedByPayload ==>
                 RoutingOf(env, req, rd) == Routing(QueuePriority(t.queue), t.maxRetries, None)
  {
    var r := rd.atJobType;
    LookupExactIff(r, req.producerId);
    forall t | Registered(r, req.producerId, req.jobType, t)
      ensures GetJobType(r, req.producerId, req.jobType) == Some(t)
    {
      RegisteredIsFound(r, req.producerId, req.jobType, t);
    }
  }

  function JobFor(env: Env, req: Request, rd: Reading): Job {
    var routing := RoutingOf(env, req, rd);
    Job(JobId.IdOf(env.prims, JobId.RecordOf(env.prims, rd.millis, req.producerId, req.jobType, rd.random)),
        req.producerId, req.jobType, routing.priority, req.payload,
        if req.runAt.Some? then req.runAt.value else rd.runNow,
        req.traceId, routing.maxRetries, rd.createdNow, env.shadow)
  }

  predicate IsDeferred(env: Env, job: Job, rd: Reading) {
    env.hasScheduler && env.config.scheduleThreshold > 0 && job.runAt - rd.routeNow >= env.config.scheduleThreshold
  }

  datatype Decision = Refused(why: Invalidity) | Admitted(job: Job, warnings: seq<Warning>, deferred: bool)

  function Decide(env: Env, req: Request, rd: Reading): Decision {
    if req.producerId == "" then Refused(NoProducerId)
    else if req.jobType == "" then Refused(NoJobType)
    else if |req.payload| > env.config.maxPayloadSize then Refused(PayloadTooLarge)
    else
      var job := JobFor(env, req, rd);
      Admitted(job, WarningsFor(env, req, rd), IsDeferred(env, job, rd))
  }

  /** The error, if any, that the service a job goes to reports for it alone. */
  function Answer(svc: Services, d: Decision): Option<ServiceError> {
    match d
    case Refused(_) => None
    case Admitted(job, _, deferred) => if deferred then svc.schedule(job) else svc.enqueue(job)
  }

  /** The reply to a request when its service answers as given. */
  function ReplyTo(req: Request, d: Decision, answer: Option<ServiceError>): Reply {
    match d
    case Refused(why) => InvalidArgument(why)
    case Admitted(job, warnings, deferred) =>
      match answer
      case None => Accepted(job.id, warnings, req.correlationId)
      case Some(e) => if deferred then ScheduleFailed else if e.unavailable then QueueUnavailable else EnqueueFailed
  }

  // ---------- what that means for the caller ----------

  /** The payload names one of the four queues, and the server looks there. */
  predicate RoutedByPayload(env: Env, payload: seq<byte>) {
    && env.config.legacyPayloadQueueRouting && env.legacyQueue(payload).Some?
    && env.legacyQueue(payload).value in {"immediate", "high", "medium", "low"}
  }

  predicate IsRegistered(env: Env, req: Request, rd: Reading) {
    env.hasStore && req.producerId + ":" + req.jobType in rd.atJobType.jobTypes
  }

  /** The payload decides, else the registered job type, else the defaults; queues are numbered as priorities. */
  predicate RoutedAs(env: Env, req: Request, rd: Reading, priority: Priority, maxRetries: int) {
    if RoutedByPayload(env, req.payload) then
      && maxRetries == env.config.defaultMaxRetries && 1 <= priority <= 4
      && env.legacyQueue(req.payload) == Some(["immediate", "high", "medium", "low"][priority - 1])
    else if IsRegistered(env, req, rd) then
      var t := rd.atJobType.jobTypes[req.producerId + ":" + req.jobType];
      maxRetries == t.maxRetries && priority == if 1 <= t.queue <= 4 then t.queue else 3
    else
      maxRetries == env.config.defaultMaxRetries && priority == env.config.defaultQueue
  }

  /** The job is the request's, field by field. */
  predicate MadeFrom(env: Env, req: Request, rd: Reading, job: Job) {
    && JobId.Identifies(env.prims, job.id, rd.millis, req.producerId, req.jobType, rd.random)
    && job.producerId == req.producerId && job.jobType == req.jobType
    && job.payload == req.payload && job.traceId == req.traceId
    && job.runAt == (if req.runAt.Some? then req.runAt.value else rd.runNow)
    && job.createdAt == rd.createdNow && job.shadow == env.shadow
    && RoutedAs(env, req, rd, job.priority, job.maxRetries)
  }

  /** The warnings name an unknown producer, then an unregistered job type, and nothing else. */
  predicate WarnedAs(env: Env, req: Request, rd: Reading, warnings: seq<Warning>) {
    var producer := env.hasStore && req.producerId !in rd.atProducer.producers;
    var jobType := env.hasStore && !IsRegistered(env, req, rd) && !RoutedByPayload(env, req.payload);
    && |warnings| == (if producer then 1 else 0) + (if jobType then 1 else 0)
    && (producer ==> warnings[0] == UnregisteredProducer(req.producerId))
    && (jobType ==> warnings[|warnings| - 1] == UnregisteredJobType(req.jobType, req.producerId))
  }

  /** The job is due so much later, by the clock as read when it is routed, that it is scheduled. */
  predicate DueLater(env: Env, job: Job, rd: Reading) {
    && env.hasScheduler && env.config.scheduleThreshold > 0
    && job.runAt >= rd.routeNow + env.config.scheduleThreshold
  }

  predicate Valid(env: Env, req: Request) {
    req.producerId != "" && req.jobType != "" && |req.payload| <= env.config.maxPayloadSize
  }

  /** What handling one request means: the calls made and the reply. */
  predicate Handled(env: Env, svc: Services, req: Request, rd: Reading,
                    reply: Reply, enqueued: seq<Job>, scheduled: seq<Job>) {
    if !Valid(env, req) then
      && enqueued == [] && scheduled == []
      && reply == InvalidArgument(if req.producerId == "" then NoProducerId
                                  else if req.jobType == "" then NoJobType else PayloadTooLarge)
    else
      && |enqueued| + |scheduled| == 1
      && var job := (enqueued + scheduled)[0];
         && MadeFrom(env, req, rd, job)
         && (|scheduled| == 1 <==> DueLater(env, job, rd))
         && var error := if |scheduled| == 1 then svc.schedule(job) else svc.enqueue(job);
            if error.None? then
              && reply.Accepted? && reply.jobId == job.id && reply.correlationId == req.correlationId
              && WarnedAs(env, req, rd, reply.warnings)
            else
              reply == if |scheduled| == 1 then ScheduleFailed
                       else if error.value.unavailable then QueueUnavailable else EnqueueFailed
  }

  lemma RoutingMeans(env: Env, req: Request, rd: Reading)
    ensures var routing := RoutingOf(env, req, rd);
            && RoutedAs(env, req, rd, routing.priority, routing.maxRetries)
            && WarnedAs(env, req, rd, WarningsFor(env, req, rd))
  {
    var names := ["immediate", "high", "medium", "low"];
    assert names[0] == "immediate" && names[1] == "high" && names[2] == "medium" && names[3] == "low";
  }

  /** What is decided about a request: refused or admitted, as which job, and for which service. */
  lemma DecisionMeans(env: Env, req: Request, rd: Reading)
    ensures var d := Decide(env, req, rd);
            if d.Refused? then
              && !Valid(env, req)
              && d.why == (if req.producerId == "" then NoProducerId
                           else if req.jobType == "" then NoJobType else PayloadTooLarge)
            else
              && Valid(env, req) && MadeFrom(env, req, rd, d.job) && WarnedAs(env, req, rd, d.warnings)
              && (d.deferred <==> DueLater(env, d.job, rd))
  {
    RoutingMeans(env, req, rd);
    JobId.IdIdentifies(env.prims, rd.millis, req.producerId, req.jobType, rd.random);
  }

  lemma DecisionHandles(env: Env, svc: Services, req: Request, rd: Reading)
    ensures var d := Decide(env, req, rd);
            Handled(env, svc, req, rd, ReplyTo(req, d, Answer(svc, d)),
                    if d.Admitted? && !d.deferred then [d.job] else [],
                    if d.Admitted? && d.deferred then [d.job] else [])
  {
    DecisionMeans(env, req, rd);
  }

  /** The middle part of handling one request: a valid one gets its warnings and becomes a job. */
  method Admit(env: Env, req: Request, rd: Reading) returns (job: Job, warnings: seq<Warning>)
    ensures job == JobFor(env, req, rd) && warnings == WarningsFor(env, req, rd)
    ensures MadeFrom(env, req, rd, job) && WarnedAs(env, req, rd, warnings)
  {
    RoutingMeans(env, req, rd);
    warnings := [];
    if env.hasStore {
      if GetProducer(rd.atProducer, req.producerId).None? {
        warnings := warnings + [UnregisteredProducer(req.producerId)];
      }
    }
    var routing := RoutingConfig(env, rd.atJobType, req.producerId, req.jobType, req.payload);
    if routing.warning.Some? {
      warnings := warnings + [routing.warning.value];
    }
    var jobId := JobId.Generate(env.prims, rd.millis, req.producerId, req.jobType, rd.random);
    var runAt := rd.runNow;
    if req.runAt.Some? {
      runAt := req.runAt.value;
    }
    job := Job(jobId, req.producerId, req.jobType, routing.priority, req.payload, runAt, req.traceId,
               routing.maxRetries, rd.createdNow, env.shadow);
  }

  /** Handles one request; at most one service is called, once, with the job. */
  method Enqueue(env: Env, svc: Services, req: Request, rd: Reading)
    returns (reply: Reply, enqueued: seq<Job>, scheduled: seq<Job>)
    ensures reply == ReplyTo(req, Decide(env, req, rd), Answer(svc, Decide(env, req, rd)))
    ensures var d := Decide(env, req, rd);
            && enqueued == (if d.Admitted? && !d.deferred then [d.job] else [])
            && scheduled == (if d.Admitted? && d.deferred then [d.job] else [])
    ensures Handled(env, svc, req, rd, reply, enqueued, scheduled)
  {
    DecisionHandles(env, svc, req, rd);
    enqueued, scheduled := [], [];
    if req.producerId == "" {
      return InvalidArgument(NoProducerId), enqueued, scheduled;
    }
    if req.jobType == "" {
      return InvalidArgument(NoJobType), enqueued, scheduled;
    }
    if |req.payload| > env.config.maxPayloadSize {
      return InvalidArgument(PayloadTooLarge), enqueued, scheduled;
    }
    var job, warnings := Admit(env, req, rd);
    reply, enqueued, scheduled := Dispatch(env, svc, req, rd, job, warnings);
  }

  /** The last part of handling one request: hand the job to the scheduler or to the backend. */
  method Dispatch(env: Env, svc: Services, req: Request, rd: Reading, job: Job, warnings: seq<Warning>)
    returns (reply: Reply, enqueued: seq<Job>, scheduled: seq<Job>)
    ensures var d := Admitted(job, warnings, IsDeferred(env, job, rd));
            && reply == ReplyTo(req, d, Answer(svc, d))
            && enqueued == (if d.deferred then [] else [job])
            && scheduled == (if d.deferred then [job] else [])
  {
    enqueued, scheduled := [], [];
    if env.hasScheduler && env.config.scheduleThreshold > 0 && job.runAt - rd.routeNow >= env.config.scheduleThreshold {
      scheduled := [job];
      if svc.schedule(job).Some? {
        return ScheduleFailed, enqueued, scheduled;
      }
      return Accepted(job.id, warnings, req.correlationId), enqueued, scheduled;
    }
    enqueued := [job];
    var error := svc.enqueue(job);
    if error.Some? {
      if error.value.unavailable {
        return QueueUnavailable, enqueued, scheduled;
      }
      return EnqueueFailed, enqueued, scheduled;
    }
    reply := Accepted(job.id, warnings, req.correlationId);
  }

  // ---------- a batch ----------

  const INTERNAL_ERROR := "internal_error"

  function ErrorText(why: Invalidity): string {
    match why
    case NoProducerId => "producer_id is required"
    case NoJobType => "job_type is required"
    case PayloadTooLarge => "payload exceeds max size"
  }

  function Reason(why: Invalidity): string {
    if why.PayloadTooLarge? then "payload_too_large" else "validation_error"
  }

  /** Conversion of a count to a 32-bit integer. */
  function Int32(i: nat): int {
    var m := i % 0x1_0000_0000;
    if m < 0x8000_0000 then m else m - 0x1_0000_0000
  }

  ghost function Decisions(env: Env, reqs: seq<Request>, rds: seq<Reading>): (ds: seq<Decision>)
    requires |reqs| == |rds|
    ensures |ds| == |reqs|
  {
    seq(|reqs|, i requires 0 <= i < |reqs| => Decide(env, reqs[i], rds[i]))
  }

  /** The positions, in order, of the admitted jobs that are deferred, or that are not. */
  function Positions(ds: seq<Decision>, deferred: bool): seq<nat> {
    if ds == [] then [] else
      var n := |ds| - 1;
      Positions(ds[..n], deferred) + if ds[n].Admitted? && ds[n].deferred == deferred then [n] else []
  }

  predicate StrictlyIncreasing(xs: seq<nat>) {
    forall i, j :: 0 <= i < j < |xs| ==> xs[i] < xs[j]
  }

  /** Each admitted job is at exactly one place of exactly one of the two lists. */
  lemma {:induction false} PositionsExact(ds: seq<Decision>, deferred: bool)
    ensures StrictlyIncreasing(Positions(ds, deferred))
    ensures forall i: nat :: i in Positions(ds, deferred) <==> i < |ds| && ds[i].Admitted? && ds[i].deferred == deferred
  {
    if ds != [] {
      var n := |ds| - 1;
      PositionsExact(ds[..n], deferred);
      var init := Positions(ds[..n], deferred);
      assert forall k :: 0 <= k < |init| ==> init[k] in init;
      assert forall i :: 0 <= i < n ==> ds[..n][i] == ds[i];
    }
  }

  /** The jobs at those positions, in order. */
  function JobsAt(ds: seq<Decision>, deferred: bool): (jobs: seq<Job>)
    ensures |jobs| == |Positions(ds, deferred)|
  {
    if ds == [] then [] else
      var n := |ds| - 1;
      JobsAt(ds[..n], deferred) + if ds[n].Admitted? && ds[n].deferred == deferred then [ds[n].job] else []
  }

  lemma {:induction false} JobsAtPositions(ds: seq<Decision>, deferred: bool, k: nat)
    requires k < |Positions(ds, deferred)|
    ensures Positions(ds, deferred)[k] < |ds|
    ensures ds[Positions(ds, deferred)[k]].Admitted? && ds[Positions(ds, deferred)[k]].deferred == deferred
    ensures JobsAt(ds, deferred)[k] == ds[Positions(ds, deferred)[k]].job
  {
    var n := |ds| - 1;
    if k < |Positions(ds[..n], deferred)| {
      JobsAtPositions(ds[..n], deferred, k);
    }
  }

  /** The result before any service has answered. */
  function Unanswered(i: nat, req: Request, d: Decision): BulkResult {
    match d
    case Refused(why) => BulkResult(Int32(i), "", ErrorText(why), [], req.correlationId, Reason(why))
    case Admitted(_, warnings, _) => BulkResult(Int32(i), "", "", warnings, req.correlationId, "")
  }

  function Answered(b: BulkResult, r: EnqueueResult): BulkResult {
    if r.error.Some? then b.(error := r.error.value, reason := INTERNAL_ERROR) else b.(jobId := r.jobId)
  }

  function AnsweredAt(b: BulkResult, rs: seq<EnqueueResult>, k: nat): BulkResult {
    if k < |rs| then Answered(b, rs[k]) else b
  }

  /** Each listed position holds the answer at the same place of the answers, if there is one. */
  ghost predicate Scattered(results: seq<BulkResult>, reqs: seq<Request>, ds: seq<Decision>, positions: seq<nat>,
                            answers: seq<EnqueueResult>)
    requires |results| == |reqs| == |ds|
  {
    forall k :: 0 <= k < |positions| && positions[k] < |ds| ==>
      results[positions[k]] == AnsweredAt(Unanswered(positions[k], reqs[positions[k]], ds[positions[k]]), answers, k)
  }

  /** What the services were asked, and what each position of the response holds. */
  ghost predicate IsBulkOutcome(svc: Services, reqs: seq<Request>, ds: seq<Decision>,
                                results: seq<BulkResult>, enqueued: seq<Job>, scheduled: seq<Job>)
    requires |reqs| == |ds|
  {
    && |results| == |reqs|
    && enqueued == JobsAt(ds, false)
    && scheduled == JobsAt(ds, true)
    && (forall i :: 0 <= i < |reqs| && ds[i].Refused? ==> results[i] == Unanswered(i, reqs[i], ds[i]))
    && Scattered(results, reqs, ds, Positions(ds, false), BulkAnswers(svc.enqueueBulk, enqueued))
    && Scattered(results, reqs, ds, Positions(ds, true), BulkAnswers(svc.scheduleBulk, scheduled))
  }

  /** A service is not called for an empty list. */
  function BulkAnswers(call: seq<Job> -> seq<EnqueueResult>, jobs: seq<Job>): seq<EnqueueResult> {
    if jobs == [] then [] else call(jobs)
  }

  predicate IsDecision(env: Env, req: Request, rd: Reading, d: Decision) {
    d == Decide(env, req, rd)
  }

  /** The first loop: validate each request and prepare its job. */
  method PrepareAll(env: Env, reqs: seq<Request>, rds: seq<Reading>, ghost ds: seq<Decision>)
    returns (jobs: array<Option<Job>>, errors: array<string>, reasons: array<string>, warnings: array<seq<Warning>>)
    requires |reqs| == |rds| == |ds| && forall i :: 0 <= i < |ds| ==> IsDecision(env, reqs[i], rds[i], ds[i])
    ensures fresh(jobs) && fresh(errors) && fresh(reasons) && fresh(warnings)
    ensures jobs.Length == errors.Length == reasons.Length == warnings.Length == |reqs|
    ensures forall i :: 0 <= i < |reqs| ==> PreparedAs(ds[i], jobs[i], errors[i], reasons[i], warnings[i])
  {
    jobs := new Option<Job>[|reqs|];
    errors := new string[|reqs|];
    reasons := new string[|reqs|];
    warnings := new seq<Warning>[|reqs|];
    for i := 0 to |reqs|
      invariant forall k :: 0 <= k < i ==> PreparedAs(ds[k], jobs[k], errors[k], reasons[k], warnings[k])
    {
      var job, error, reason, ws := PrepareOne(env, reqs[i], rds[i], ds[i]);
      jobs[i] := job;
      errors[i] := error;
      reasons[i] := reason;
      warnings[i] := ws;
    }
  }

  /** What preparing one request of a batch means. */
  predicate Prepared(env: Env, req: Request, rd: Reading, job: Option<Job>, error: string, reason: string,
                     warnings: seq<Warning>) {
    if Valid(env, req) then
      && job.Some? && MadeFrom(env, req, rd, job.value) && error == "" && reason == ""
      && WarnedAs(env, req, rd, warnings)
    else
      && job.None? && warnings == []
      && error == (if req.producerId == "" then "producer_id is required"
                   else if req.jobType == "" then "job_type is required" else "payload exceeds max size")
      && reason == (if req.producerId == "" || req.jobType == "" then "validation_error" else "payload_too_large")
  }

  lemma PreparedMeans(env: Env, req: Request, rd: Reading, d: Decision)
    requires IsDecision(env, req, rd, d)
    ensures match d
            case Refused(why) => Prepared(env, req, rd, None, ErrorText(why), Reason(why), [])
            case Admitted(job, ws, _) => Prepared(env, req, rd, Some(job), "", "", ws)
  {
    DecisionMeans(env, req, rd);
  }

  /** The body of that loop; the source leaves it early for an invalid request. */
  method PrepareOne(env: Env, r: Request, rd: Reading, ghost d: Decision)
    returns (job: Option<Job>, error: string, reason: string, ws: seq<Warning>)
    requires IsDecision(env, r, rd, d)
    ensures PreparedAs(d, job, error, reason, ws)
    ensures job.Some? <==> Valid(env, r)
    ensures job.Some? ==> MadeFrom(env, r, rd, job.value) && WarnedAs(env, r, rd, ws)
  {
    DecisionMeans(env, r, rd);
    job, error, reason, ws := None, "", "", [];
    if r.producerId == "" {
      return None, "producer_id is required", "validation_error", [];
    }
    if r.jobType == "" {
      return None, "job_type is required", "validation_error", [];
    }
    if |r.payload| > env.config.maxPayloadSize {
      return None, "payload exceeds max size", "payload_too_large", [];
    }
    if env.hasStore {
      if GetProducer(rd.atProducer, r.producerId).None? {
        ws := ws + [UnregisteredProducer(r.producerId)];
      }
    }
    var routing := RoutingConfig(env, rd.atJobType, r.producerId, r.jobType, r.payload);
    if routing.warning.Some? {
      ws := ws + [routing.warning.value];
    }
    var jobId := JobId.Generate(env.prims, rd.millis, r.producerId, r.jobType, rd.random);
    var runAt := rd.runNow;
    if r.runAt.Some? {
      runAt := r.runAt.value;
    }
    job := Some(Job(jobId, r.producerId, r.jobType, routing.priority, r.payload, runAt, r.traceId,
                    routing.maxRetries, rd.createdNow, env.shadow));
  }

  /** How the first loop leaves a decision in its four slices. */
  predicate PreparedAs(d: Decision, job: Option<Job>, error: string, reason: string, warnings: seq<Warning>) {
    match d
    case Refused(why) => job == None && error == ErrorText(why) && reason == Reason(why) && warnings == []
    case Admitted(j, ws, _) => job == Some(j) && error == "" && reason == "" && warnings == ws
  }

  /** The second loop: split the prepared jobs, remembering where each came from. */
  method Partition(env: Env, jobs: array<Option<Job>>, rds: seq<Reading>, ghost ds: seq<Decision>)
    returns (immediateJobs: seq<Job>, futureJobs: seq<Job>, immediateIndexes: seq<nat>, futureIndexes: seq<nat>)
    requires jobs.Length == |rds| == |ds|
    requires forall i :: 0 <= i < |ds| ==>
               if ds[i].Admitted? then
                 jobs[i] == Some(ds[i].job) && ds[i].deferred == IsDeferred(env, ds[i].job, rds[i])
               else jobs[i] == None
    ensures immediateJobs == JobsAt(ds, false) && immediateIndexes == Positions(ds, false)
    ensures futureJobs == JobsAt(ds, true) && futureIndexes == Positions(ds, true)
  {
    immediateJobs, futureJobs, immediateIndexes, futureIndexes := [], [], [], [];
    var useScheduler := env.hasScheduler && env.config.scheduleThreshold > 0;
    for i := 0 to jobs.Length
      invariant immediateIndexes == Positions(ds[..i], false) && futureIndexes == Positions(ds[..i], true)
      invariant immediateJobs == JobsAt(ds[..i], false) && futureJobs == JobsAt(ds[..i], true)
    {
      assert ds[..i + 1][..i] == ds[..i] && ds[..i + 1][i] == ds[i];
      if jobs[i].None? {
        continue;
      }
      var job := jobs[i].value;
      if useScheduler && job.runAt - rds[i].routeNow >= env.config.scheduleThreshold {
        futureJobs := futureJobs + [job];
        futureIndexes := futureIndexes + [i];
      } else {
        immediateJobs := immediateJobs + [job];
        immediateIndexes := immediateIndexes + [i];
      }
    }
    assert ds[..|ds|] == ds;
  }

  /** Copies a service's results to the positions their jobs came from; missing results are skipped. */
  method Scatter(results: array<BulkResult>, indexes: seq<nat>, answers: seq<EnqueueResult>)
    requires StrictlyIncreasing(indexes) && forall k :: 0 <= k < |indexes| ==> indexes[k] < results.Length
    modifies results
    ensures forall k :: 0 <= k < |indexes| ==> results[indexes[k]] == AnsweredAt(old(results[indexes[k]]), answers, k)
    ensures forall i :: 0 <= i < results.Length && i !in indexes ==> results[i] == old(results[i])
  {
    for idx := 0 to |indexes|
      invariant forall k :: 0 <= k < idx ==> results[indexes[k]] == AnsweredAt(old(results[indexes[k]]), answers, k)
      invariant forall k :: idx <= k < |indexes| ==> results[indexes[k]] == old(results[indexes[k]])
      invariant forall i :: 0 <= i < results.Length && i !in indexes ==> results[i] == old(results[i])
    {
      var validIdx := indexes[idx];
      if idx < |answers| {
        var br := answers[idx];
        if br.error.Some? {
          results[validIdx] := results[validIdx].(error := br.error.value);
          results[validIdx] := results[validIdx].(reason := INTERNAL_ERROR);
        } else {
          results[validIdx] := results[validIdx].(jobId := br.jobId);
        }
      }
    }
  }

  /** Handles a batch: an empty one is an error, otherwise there is one result for each request. */
  method EnqueueBulk(env: Env, svc: Services, reqs: seq<Request>, rds: seq<Reading>)
    returns (response: Option<seq<BulkResult>>, enqueued: seq<Job>, scheduled: seq<Job>)
    requires |reqs| == |rds|
    ensures response.None? <==> reqs == []
    ensures response.None? ==> enqueued == [] && scheduled == []
    ensures response.Some? ==> IsBulkOutcome(svc, reqs, Decisions(env, reqs, rds), response.value, enqueued, scheduled)
  {
    if |reqs| == 0 {
      return None, [], [];
    }
    ghost var ds := Decisions(env, reqs, rds);
    var jobs, errors, reasons, warnings := PrepareAll(env, reqs, rds, ds);
    var now, later;
    enqueued, scheduled, now, later := Partition(env, jobs, rds, ds);

    var immediateResults: seq<EnqueueResult> := [];
    if |enqueued| > 0 {
      immediateResults := svc.enqueueBulk(enqueued);
    }
    var futureResults: seq<EnqueueResult> := [];
    if |scheduled| > 0 {
      futureResults := svc.scheduleBulk(scheduled);
    }

    var results := BuildResults(reqs, jobs, errors, reasons, warnings, ds);
    ScatterAll(results, now, immediateResults, later, futureResults, reqs, ds);
    response := Some(results[..]);
  }

  /** The last two loops: fill in the backend's results, then the scheduler's. */
  method ScatterAll(results: array<BulkResult>, now: seq<nat>, immediateResults: seq<EnqueueResult>,
                    later: seq<nat>, futureResults: seq<EnqueueResult>,
                    ghost reqs: seq<Request>, ghost ds: seq<Decision>)
    requires results.Length == |reqs| == |ds|
    requires now == Positions(ds, false) && later == Positions(ds, true)
    requires forall i :: 0 <= i < |reqs| ==> results[i] == Unanswered(i, reqs[i], ds[i])
    modifies results
    ensures forall i :: 0 <= i < |reqs| && ds[i].Refused? ==> results[i] == Unanswered(i, reqs[i], ds[i])
    ensures Scattered(results[..], reqs, ds, now, immediateResults)
    ensures Scattered(results[..], reqs, ds, later, futureResults)
  {
    PositionsExact(ds, false);
    PositionsExact(ds, true);
    assert forall k :: 0 <= k < |now| ==> now[k] in now && now[k] !in later;
    assert forall k :: 0 <= k < |later| ==> later[k] in later && later[k] !in now;
    Scatter(results, now, immediateResults);
    Scatter(results, later, futureResults);
  }

  /** Starts the response: warnings and correlation identifiers, then the validation errors. */
  method BuildResults(reqs: seq<Request>, jobs: array<Option<Job>>, errors: array<string>, reasons: array<string>,
                      warnings: array<seq<Warning>>, ghost ds: seq<Decision>)
    returns (results: array<BulkResult>)
    requires |reqs| == |ds| == jobs.Length == errors.Length == reasons.Length == warnings.Length
    requires forall i :: 0 <= i < |ds| ==> PreparedAs(ds[i], jobs[i], errors[i], reasons[i], warnings[i])
    ensures fresh(results) && results.Length == |reqs|
    ensures forall i :: 0 <= i < |reqs| ==> results[i] == Unanswered(i, reqs[i], ds[i])
  {
    results := new BulkResult[|reqs|](_ => BulkResult(0, "", "", [], "", ""));
    for i := 0 to |reqs|
      invariant forall k :: 0 <= k < i ==> results[k] == Blank(k, reqs[k], warnings[k])
    {
      results[i] := Blank(i, reqs[i], warnings[i]);
    }
    FillErrors(results, reqs, jobs, errors, reasons, warnings, ds);
  }

  method FillErrors(results: array<BulkResult>, ghost reqs: seq<Request>, ghost jobs: array<Option<Job>>,
                    errors: array<string>, reasons: array<string>, ghost warnings: array<seq<Warning>>,
                    ghost ds: seq<Decision>)
    requires |reqs| == |ds| == jobs.Length == errors.Length == reasons.Length == warnings.Length == results.Length
    requires forall i :: 0 <= i < |ds| ==> PreparedAs(ds[i], jobs[i], errors[i], reasons[i], warnings[i])
    requires forall k :: 0 <= k < |reqs| ==> results[k] == Blank(k, reqs[k], warnings[k])
    modifies results
    ensures forall i :: 0 <= i < |reqs| ==> results[i] == Unanswered(i, reqs[i], ds[i])
  {
    for i := 0 to results.Length
      invariant forall k :: 0 <= k < i ==> results[k] == Unanswered(k, reqs[k], ds[k])
      invariant forall k :: i <= k < |reqs| ==> results[k] == Blank(k, reqs[k], warnings[k])
    {
      WithErrorIsUnanswered(i, reqs[i], ds[i], jobs[i], errors[i], reasons[i], warnings[i]);
      if errors[i] != "" {
        results[i] := results[i].(error := errors[i], reason := reasons[i]);
      }
    }
  }

  function Blank(i: nat, req: Request, warnings: seq<Warning>): BulkResult {
    BulkResult(Int32(i), "", "", warnings, req.correlationId, "")
  }

  lemma WithErrorIsUnanswered(i: nat, req: Request, d: Decision, job: Option<Job>, error: string, reason: string,
                              warnings: seq<Warning>)
    requires PreparedAs(d, job, error, reason, warnings)
    ensures Unanswered(i, req, d)
         == if error != "" then Blank(i, req, warnings).(error := error, reason := reason) else Blank(i, req, warnings)
  {
  }

  // ---------- what a batch means for the caller ----------

  /** The result of one request, before it is known what its service answered. */
  predicate Responds(env: Env, req: Request, rd: Reading, result: BulkResult) {
    && result.correlationId == req.correlationId
    && if Valid(env, req) then
         && WarnedAs(env, req, rd, result.errorMessages)
         && (result.reason == "" ==> result.error == "")
         && (result.reason != "" ==> result.reason == "internal_error" && result.jobId == "")
       else
         Prepared(env, req, rd, None, result.error, result.reason, result.errorMessages) && result.jobId == ""
  }

  /** The k-th job of a list is made from request i, and result i is what is answered at place k. */
  predicate Serves(env: Env, req: Request, rd: Reading, job: Job, answers: seq<EnqueueResult>, k: nat,
                   result: BulkResult) {
    && Valid(env, req) && MadeFrom(env, req, rd, job)
    && (k < |answers| ==>
          if answers[k].error.None? then result.jobId == answers[k].jobId && result.reason == ""
          else result.error == answers[k].error.value && result.reason == "internal_error")
    && (k >= |answers| ==> result.jobId == "" && result.reason == "")
  }

  /** One of the two lists: its jobs are made from the requests at these places, and answered there. */
  ghost predicate ListServed(env: Env, reqs: seq<Request>, rds: seq<Reading>, results: seq<BulkResult>,
                             places: seq<nat>, jobs: seq<Job>, answers: seq<EnqueueResult>, later: bool)
    requires |reqs| == |rds| == |results|
  {
    && |places| == |jobs| && StrictlyIncreasing(places)
    && forall k :: 0 <= k < |places| ==>
         && places[k] < |reqs| && (DueLater(env, jobs[k], rds[places[k]]) <==> later)
         && Serves(env, reqs[places[k]], rds[places[k]], jobs[k], answers, k, results[places[k]])
  }

  /**
   * A batch, said without the decisions: which requests are in which list, in request order,
   * which jobs are handed over for them, and what each result says.
   */
  lemma BulkOutcomeMeans(env: Env, svc: Services, reqs: seq<Request>, rds: seq<Reading>,
                         results: seq<BulkResult>, enqueued: seq<Job>, scheduled: seq<Job>)
    returns (now: seq<nat>, later: seq<nat>)
    requires |reqs| == |rds| && IsBulkOutcome(svc, reqs, Decisions(env, reqs, rds), results, enqueued, scheduled)
    ensures |results| == |reqs|
    ensures ListServed(env, reqs, rds, results, now, enqueued, BulkAnswers(svc.enqueueBulk, enqueued), false)
    ensures ListServed(env, reqs, rds, results, later, scheduled, BulkAnswers(svc.scheduleBulk, scheduled), true)
    ensures forall i: nat :: (i in now || i in later) <==> i < |reqs| && Valid(env, reqs[i])
    ensures forall i :: 0 <= i < |reqs| ==> Responds(env, reqs[i], rds[i], results[i])
  {
    var ds := Decisions(env, reqs, rds);
    now, later := Positions(ds, false), Positions(ds, true);
    ListIsServed(env, reqs, rds, results, false, BulkAnswers(svc.enqueueBulk, enqueued));
    ListIsServed(env, reqs, rds, results, true, BulkAnswers(svc.scheduleBulk, scheduled));
    ValidAreListed(env, reqs, rds);
    forall i | 0 <= i < |reqs|
      ensures Responds(env, reqs[i], rds[i], results[i])
    {
      RespondsTo(env, svc, reqs, rds, results, enqueued, scheduled, i);
    }
  }

  lemma ValidAreListed(env: Env, reqs: seq<Request>, rds: seq<Reading>)
    requires |reqs| == |rds|
    ensures var ds := Decisions(env, reqs, rds);
            forall i: nat :: (i in Positions(ds, false) || i in Positions(ds, true)) <==>
              i < |reqs| && Valid(env, reqs[i])
  {
    var ds := Decisions(env, reqs, rds);
    PositionsExact(ds, false);
    PositionsExact(ds, true);
    forall i: nat | i < |reqs|
      ensures ds[i].Admitted? <==> Valid(env, reqs[i])
    {
      DecisionMeans(env, reqs[i], rds[i]);
    }
  }

  lemma ListIsServed(env: Env, reqs: seq<Request>, rds: seq<Reading>, results: seq<BulkResult>, deferred: bool,
                     answers: seq<EnqueueResult>)
    requires |reqs| == |rds| == |results|
    requires var ds := Decisions(env, reqs, rds); Scattered(results, reqs, ds, Positions(ds, deferred), answers)
    ensures var ds := Decisions(env, reqs, rds);
            ListServed(env, reqs, rds, results, Positions(ds, deferred), JobsAt(ds, deferred), answers, deferred)
  {
    var ds := Decisions(env, reqs, rds);
    var places, jobs := Positions(ds, deferred), JobsAt(ds, deferred);
    PositionsExact(ds, deferred);
    forall k | 0 <= k < |places|
      ensures places[k] < |reqs| && (DueLater(env, jobs[k], rds[places[k]]) <==> deferred)
      ensures Serves(env, reqs[places[k]], rds[places[k]], jobs[k], answers, k, results[places[k]])
    {
      JobsAtPositions(ds, deferred, k);
      ServesAt(env, reqs[places[k]], rds[places[k]], places[k], answers, k, results[places[k]]);
    }
  }

  lemma ServesAt(env: Env, req: Request, rd: Reading, i: nat, answers: seq<EnqueueResult>, k: nat, result: BulkResult)
    requires Decide(env, req, rd).Admitted?
    requires result == AnsweredAt(Unanswered(i, req, Decide(env, req, rd)), answers, k)
    ensures Serves(env, req, rd, Decide(env, req, rd).job, answers, k, result)
    ensures DueLater(env, Decide(env, req, rd).job, rd) <==> Decide(env, req, rd).deferred
    ensures Responds(env, req, rd, result)
  {
    DecisionMeans(env, req, rd);
  }

  lemma RespondsTo(env: Env, svc: Services, reqs: seq<Request>, rds: seq<Reading>,
                   results: seq<BulkResult>, enqueued: seq<Job>, scheduled: seq<Job>, i: nat)
    requires |reqs| == |rds| && IsBulkOutcome(svc, reqs, Decisions(env, reqs, rds), results, enqueued, scheduled)
    requires i < |reqs|
    ensures Responds(env, reqs[i], rds[i], results[i])
  {
    var ds := Decisions(env, reqs, rds);
    if ds[i].Admitted? {
      var k := PlaceOf(svc, reqs, ds, results, enqueued, scheduled, i);
      ServesAt(env, reqs[i], rds[i], i, AnswersFor(svc, ds[i], enqueued, scheduled), k, results[i]);
    } else {
      PreparedMeans(env, reqs[i], rds[i], ds[i]);
    }
  }

  // ---------- a batch against its requests one by one ----------

  ghost predicate PointwiseAnswers(answers: seq<EnqueueResult>, jobs: seq<Job>, single: Job -> Option<ServiceError>) {
    && |answers| == |jobs|
    && forall k :: 0 <= k < |jobs| ==> PointwiseResult(answers[k], jobs[k], single(jobs[k]))
  }

  predicate PointwiseResult(r: EnqueueResult, job: Job, answer: Option<ServiceError>) {
    match answer
    case None => r.error == None && r.jobId == job.id
    case Some(e) => r.error == Some(e.text)
  }

  /** To these two lists the bulk calls report for each job what the single calls would. */
  ghost predicate Pointwise(svc: Services, enqueued: seq<Job>, scheduled: seq<Job>) {
    && PointwiseAnswers(BulkAnswers(svc.enqueueBulk, enqueued), enqueued, svc.enqueue)
    && PointwiseAnswers(BulkAnswers(svc.scheduleBulk, scheduled), scheduled, svc.schedule)
  }

  /** What the response to a single request says, in the form a bulk response has. */
  function BulkView(req: Request, d: Decision, answer: Option<ServiceError>, i: nat): BulkResult {
    match ReplyTo(req, d, answer)
    case Accepted(jobId, warnings, correlationId) => BulkResult(Int32(i), jobId, "", warnings, correlationId, "")
    case InvalidArgument(why) => BulkResult(Int32(i), "", ErrorText(why), [], req.correlationId, Reason(why))
    case _ => BulkResult(Int32(i), "", answer.value.text, d.warnings, req.correlationId, INTERNAL_ERROR)
  }

  /** The list an admitted job is on, and what its service answers to that list. */
  function HandedOver(d: Decision, enqueued: seq<Job>, scheduled: seq<Job>): seq<Job>
    requires d.Admitted?
  {
    if d.deferred then scheduled else enqueued
  }

  function AnswersFor(svc: Services, d: Decision, enqueued: seq<Job>, scheduled: seq<Job>): seq<EnqueueResult>
    requires d.Admitted?
  {
    if d.deferred then BulkAnswers(svc.scheduleBulk, scheduled) else BulkAnswers(svc.enqueueBulk, enqueued)
  }

  /** The place at which an admitted job is handed over, and the result there. */
  lemma PlaceOf(svc: Services, reqs: seq<Request>, ds: seq<Decision>, results: seq<BulkResult>,
                enqueued: seq<Job>, scheduled: seq<Job>, i: nat) returns (k: nat)
    requires |reqs| == |ds| && i < |reqs| && ds[i].Admitted?
    requires IsBulkOutcome(svc, reqs, ds, results, enqueued, scheduled)
    ensures k < |HandedOver(ds[i], enqueued, scheduled)| && HandedOver(ds[i], enqueued, scheduled)[k] == ds[i].job
    ensures results[i] == AnsweredAt(Unanswered(i, reqs[i], ds[i]), AnswersFor(svc, ds[i], enqueued, scheduled), k)
  {
    var positions := Positions(ds, ds[i].deferred);
    PositionsExact(ds, ds[i].deferred);
    assert i in positions;
    k :| 0 <= k < |positions| && positions[k] == i;
    JobsAtPositions(ds, ds[i].deferred, k);
  }

  /**
   * A batch is its requests one by one: each result is the reply that Enqueue would give
   * to that request alone, whatever else is in the batch.
   */
  lemma BulkRefinesSingle(svc: Services, reqs: seq<Request>, ds: seq<Decision>, results: seq<BulkResult>,
                          enqueued: seq<Job>, scheduled: seq<Job>, i: nat)
    requires |reqs| == |ds| && i < |reqs|
    requires Pointwise(svc, enqueued, scheduled) && IsBulkOutcome(svc, reqs, ds, results, enqueued, scheduled)
    ensures results[i] == BulkView(reqs[i], ds[i], Answer(svc, ds[i]), i)
  {
    if ds[i].Admitted? {
      var k := PlaceOf(svc, reqs, ds, results, enqueued, scheduled, i);
      PointwiseAnswer(svc, ds[i], enqueued, scheduled, k);
      ViewOfAnswer(reqs[i], ds[i], Answer(svc, ds[i]), AnswersFor(svc, ds[i], enqueued, scheduled)[k], i);
    }
  }

  lemma PointwiseAnswer(svc: Services, d: Decision, enqueued: seq<Job>, scheduled: seq<Job>, k: nat)
    requires Pointwise(svc, enqueued, scheduled) && d.Admitted? && k < |HandedOver(d, enqueued, scheduled)|
    requires HandedOver(d, enqueued, scheduled)[k] == d.job
    ensures k < |AnswersFor(svc, d, enqueued, scheduled)|
    ensures PointwiseResult(AnswersFor(svc, d, enqueued, scheduled)[k], d.job, Answer(svc, d))
  {
  }

  lemma ViewOfAnswer(req: Request, d: Decision, answer: Option<ServiceError>, r: EnqueueResult, i: nat)
    requires d.Admitted? && PointwiseResult(r, d.job, answer)
    ensures Answered(Unanswered(i, req, d), r) == BulkView(req, d, answer, i)
  {
  }

  /** What services promise at least: an answer for each job, naming it or saying what went wrong. */
  ghost predicate AnswersAll(answers: seq<EnqueueResult>, jobs: seq<Job>) {
    && |answers| == |jobs|
    && forall k :: 0 <= k < |jobs| ==> IsAnswer(answers[k])
  }

  predicate IsAnswer(r: EnqueueResult) {
    if r.error.Some? then r.error.value != "" else r.jobId != ""
  }

  /** Each result carries a job identifier or an error, never both and never neither. */
  lemma ExactlyOneOfIdAndError(svc: Services, reqs: seq<Request>, ds: seq<Decision>, results: seq<BulkResult>,
                               enqueued: seq<Job>, scheduled: seq<Job>, i: nat)
    requires |reqs| == |ds| && i < |reqs|
    requires AnswersAll(BulkAnswers(svc.enqueueBulk, enqueued), enqueued)
    requires AnswersAll(BulkAnswers(svc.scheduleBulk, scheduled), scheduled)
    requires IsBulkOutcome(svc, reqs, ds, results, enqueued, scheduled)
    ensures (results[i].jobId != "") != (results[i].error != "")
    ensures results[i].correlationId == reqs[i].correlationId
    ensures -0x8000_0000 <= results[i].index < 0x8000_0000 && (results[i].index - i) % 0x1_0000_0000 == 0
  {
    if ds[i].Admitted? {
      var k := PlaceOf(svc, reqs, ds, results, enqueued, scheduled, i);
      AnswerThere(svc, ds[i], enqueued, scheduled, k);
    }
    ResultShape(i, reqs[i], ds[i]);
  }

  lemma AnswerThere(svc: Services, d: Decision, enqueued: seq<Job>, scheduled: seq<Job>, k: nat)
    requires AnswersAll(BulkAnswers(svc.enqueueBulk, enqueued), enqueued)
    requires AnswersAll(BulkAnswers(svc.scheduleBulk, scheduled), scheduled)
    requires d.Admitted? && k < |HandedOver(d, enqueued, scheduled)|
    ensures k < |AnswersFor(svc, d, enqueued, scheduled)| && IsAnswer(AnswersFor(svc, d, enqueued, scheduled)[k])
  {
  }

  lemma ResultShape(i: nat, req: Request, d: Decision)
    ensures var b := Unanswered(i, req, d);
            && b.correlationId == req.correlationId && b.jobId == ""
            && (d.Refused? <==> b.error != "")
            && -0x8000_0000 <= b.index < 0x8000_0000 && (b.index - i) % 0x1_0000_0000 == 0
  {
  }
}
