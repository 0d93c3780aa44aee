# Job service: model and proofs

The job service accepts background jobs over gRPC, gives each one a sortable identifier, and
either publishes it to a Pub/Sub topic at once or parks it as a named Cloud Tasks task whose
callback publishes it later. Producers and job types are kept in a registry that is mirrored
in two objects of a storage bucket. This project models four parts of the service and proves
what they promise.

**Identifiers** (`radix.dfy`, `base62.dfy`, `jobid.dfy`). The generator fills a 21-byte
big-endian buffer, divides it by 62 in place again and again, reverses the remainders and
puts back leading zeros. The loops are proved to compute a change of base, that change of
base is proved to be a bijection between all byte strings and all strings over the alphabet,
and from it follow a decoder for identifiers (which the service calls decodable but does not
ship), exactly when two identifiers coincide, how long they are and how they sort.

**The registry** (`records.dfy`, `storemachine.dfy`, `stores.dfy`). A machine with steps for
locking and inserting, writing an object, reporting a save, rolling back, crashing and
reloading. A save may succeed, fail, or report failure although the object was replaced. One
lemma about one step, that nothing the store stands for is ever taken back, gives
durability over whole runs, stable reads and listings and referential integrity at every crash
point; what a failed create can leave on disk is stated exactly. The two stores are classes;
every call of the write-through store is proved to agree with the plain maps and to be a path
of the machine.

**Batches** (`server.dfy`, `fanout.dfy`, `pubsub.dfy`, `cloudtasks.dfy`). A batch is
validated, split into two lists with index maps, sent to two services and scattered back; it
is proved to give each request what a single call would give it. Goroutines are moves of a
small machine in which the spawning loop and the running goroutines interleave freely; every
order gives the same result exactly unless two jobs compete for a free task name.

**Delivery** (`taskcodec.dfy`, `delivery.dfy`, `bulkdelivery.dfy`, `service.dfy`). Submissions
and callbacks are steps; publishing and task creation may fail, or take effect while their
answer is lost. Each submission has its own call, with its own shadow mark, and its own view of
the registry. No accepted job is lost in any run. A batch is handled event by event while other
requests and callbacks go on: every result of its response is proved to be what a single call
would get at the moment its request is handed over, and the batch to prolong the run it is part
of. The objects of the running service are proved to perform the protocol's steps.

Each operation is tied to a specification function, about which the main results are proved,
and also says outright, in literal values and field by field, what it leaves behind.

Where the code and its comments disagree, or a promise holds only in part:

- The comment at `internal/jobid/jobid.go:11` says about 29 characters after the prefix; the
  code always gives 27 or 28 (`JobId.IdLength`).
- Identifiers sort by creation time exactly if they have the same length. They grow by one
  character at millisecond 196291971510673 (in the year 8190), and across that point the later
  identifier sorts first (`JobId.IdOrder`, `JobId.IdOrderByTime`;
  `JobId.SortingBreaksAtRollover` names two clock readings).
- Registry keys are "producer:name". Two pairs share a key exactly when one producer
  identifier followed by a colon begins another (`Records.KeysInjectiveIff`); identifiers that
  the service generates never do.
- `Enqueue` admits payloads of 1048576 bytes, but a deferred job's payload cannot exceed 72960
  (`CloudTasks.LargePayloadIsRefused`, `Delivery.PendingTasksAreSmall`).
- The server does not check a requested run time. A deferred job with an instant outside the
  years 0 to 9999 gets, if it is accepted, a task whose body no callback can read, and no other
  job does (`Delivery.UnreadableTaskArises`, an equivalence; `Delivery.FarRequestIsStuck` gives
  the run for the first instant of the year 10000). Callbacks for it are answered 400 for ever
  (`Delivery.UnreadableTaskStaysForever`). All this presupposes that the task service accepts
  such a schedule time, which `Schedule` passes to it beside the body
  (`internal/scheduler/cloudtasks.go:106`): if it refuses, the job is never accepted. Which times
  the task service accepts is not part of this model.
- A create that reports failure may have replaced the durable object, so its record can be
  found after a crash (`StoreMachine.FailedCreateMayReappear`, a run). Each object holds at most
  one such record, that of the last write (`StoreMachine.OnlyLastWriteIsAhead`).

Assumptions about libraries are parameters with stated laws: SHA-256 and CRC-32 are arbitrary
functions (`JobId.Primitives`), JSON and RFC 3339 text obey `TaskCodec.Lawful` (an instant's
text can be parsed back exactly when its year has four digits, and a payload is base64 in the
body as in section 4 of RFC 4648), and the message format is an arbitrary partial function of
the job. Clock readings, random bytes and the outcomes of outside calls are parameters.

## Model

| member | source | states |
|---|---|---|
| Radix.DigitsUnique | internal/jobid/jobid.go:102-105 | a digit sequence without a leading zero is the only one for its value, so repeated division finds it |
| Radix.LexIsNumeric | internal/jobid/jobid.go:51-86 | digit sequences of equal length compare as their numbers do |
| Radix.RecodeInverse | internal/jobid/jobid.go:89-125 | changing base and keeping leading zeros one for one is undone by changing back |
| Base62.IsZero | internal/jobid/jobid.go:128-135 | true exactly for a buffer whose number is zero |
| Base62.QuotientDigit | internal/jobid/jobid.go:142-144 | a quotient digit is at most 255, so the cast to a byte never truncates |
| Base62.DivideBy62 | internal/jobid/jobid.go:139-147 | leaves the number's quotient by 62 in place and returns the remainder, for any width |
| Base62.EmitOne | internal/jobid/jobid.go:102-105 | the number strictly falls while it is not zero, and each remainder completes the digits and fits the buffer |
| Base62.EmitDigits | internal/jobid/jobid.go:102-105 | the loop ends with the number's digits, lowest first |
| Base62.ReversePrefix | internal/jobid/jobid.go:107-110 | swapping from both ends reverses the written characters |
| Base62.PrependZeros | internal/jobid/jobid.go:112-118 | one zero digit is put in front for each leading zero byte, no more and no fewer |
| Base62.EncodeBase62 | internal/jobid/jobid.go:89-125 | the whole in-place algorithm computes the change of base Encode; its last fallback is unreachable |
| Base62.DecodeEncode | internal/jobid/jobid.go:89-125 | decoding gives back every byte string, empty, all zero or with leading zeros |
| Base62.EncodeDecode | internal/jobid/jobid.go:89-125 | every string over the alphabet is the encoding of what it decodes to, so the code is a bijection |
| Base62.EncodeInjective | internal/jobid/jobid.go:89-125 | different byte strings have different texts |
| Base62.EncodeLength | internal/jobid/jobid.go:96 | the text of n bytes has at most 2n characters, so the buffer's capacity suffices; it is empty only for no bytes |
| Base62.TextOrder | internal/jobid/jobid.go:51 | the alphabet is in increasing code order, so texts compare byte by byte as digit sequences do |
| JobId.ShiftedBytes | internal/jobid/jobid.go:62-68 | the six truncating shifts of the clock are the big-endian bytes of the time modulo 2^48, for negative times too |
| JobId.WriteHeader | internal/jobid/jobid.go:57-79 | filling the buffer by index leaves version, time, hashes and random bytes in their places |
| JobId.Generate | internal/jobid/jobid.go:54-86 | the identifier is "pjob_" and text for 21 bytes: version 1, the time modulo 2^48, the application's hash at 7 to 10, the job type's at 11 to 14, the random bytes, and the low 16 bits of the checksum of the first 19 |
| JobId.IdIdentifies | internal/jobid/jobid.go:54-86 | the same, byte by byte, of the identifier that the specification gives |
| JobId.DecodeIdInverse | proto/jack.proto:41-42 | an identifier decodes to the very record it was made from |
| JobId.DecodeIdSound | internal/jobid/jobid.go:54-86 | only identifiers the generator can make decode, hence bytes 19 and 20 are the checksum of the first 19 |
| JobId.SameIdIff | internal/jobid/jobid.go:14-16 | two identifiers coincide if and only if times modulo 2^48, both hashes and the random bytes do |
| JobId.IdLength | internal/jobid/jobid.go:31-48 | 27 digits if the payload is below 62^27 and 28 otherwise, never anything else |
| JobId.IdLengthByTime | internal/jobid/jobid.go:31-48 | in terms of the clock: 27 before the rollover millisecond, 28 after it |
| JobId.IdIsLegalTaskName | internal/scheduler/cloudtasks.go:81-83 | every character of an identifier is allowed in a task name |
| JobId.LaterIsGreater | internal/jobid/jobid.go:57-68 | a later timestamp gives a greater payload, whatever hashes, random bytes and checksum follow |
| JobId.IdOrder | internal/jobid/jobid.go:51-86 | the earlier identifier sorts first if and only if the two payloads are not on different sides of 62^27, and the later one if and only if they are |
| JobId.IdOrderByTime | internal/jobid/jobid.go:51-86 | for any two times, in terms of what a caller sees: the earlier identifier sorts first if and only if both are equally long, which they are on either side of the rollover millisecond |
| JobId.SortingBreaksAtRollover | internal/jobid/jobid.go:51-86 | two concrete clock readings two milliseconds apart whose identifiers sort backwards |
| Records.KeysInjectiveIff | internal/storage/storage.go:16-18 | keys identify producer and name if and only if no identifier with a colon begins another |
| Records.KeyClash | internal/storage/storage.go:16-18 | if one does, two concrete pairs have the same key |
| Records.ServerIdsAreSeparable | internal/api/admin_server.go:29-33 | identifiers made by the admin service never do, whatever the random bytes |
| Records.HexSpells | internal/api/admin_server.go:29-33 | a generated identifier spells each random byte as its two lower-case hexadecimal digits |
| Records.RegisteredIsFound | internal/storage/gcs.go:282-293 | a registered job type is found under its producer and name |
| Records.LookupExactIff | internal/storage/gcs.go:282-293 | lookups for a producer find only what was registered for that pair, if and only if nothing shadows the producer |
| Records.SeparableIsUnshadowed | internal/storage/storage.go:16-18 | separable identifiers, the looked-up one included, leave nothing shadowed |
| Records.ListingMatchesLookup | internal/storage/gcs.go:296-307 | listing an unshadowed producer gives exactly the job types lookups can reach |
| Records.RebuildListing | internal/storage/gcs.go:85-94 | saving a map as a list in any order and loading the list gives back the same map |
| StoreMachine.WriteKeepsCommitted | internal/storage/gcs.go:147-201 | replacing an object during a save changes nothing the store stands for |
| StoreMachine.StepKeepsCommitted | internal/storage/gcs.go:204-279 | every step keeps the invariant and takes back or alters no committed record, through crashes and ambiguous saves |
| StoreMachine.StepRefinesReference | internal/storage/memory.go:30-105 | each step is the plain maps' operation, with its error, or changes nothing they can see |
| StoreMachine.DurableIsReferential | internal/storage/gcs.go:147-279 | at every point of every run durable job types refer to durable producers only |
| StoreMachine.CommittedGrows | internal/storage/gcs.go:204-279 | over a whole run what the store stands for only grows |
| StoreMachine.AcknowledgedProducerIsDurable | internal/storage/gcs.go:204-225 | a producer whose create returned nil is durable, unchanged, at every later point |
| StoreMachine.AcknowledgedJobTypeIsDurable | internal/storage/gcs.go:253-279 | the same for a job type |
| StoreMachine.HeldRecordIsStamped | internal/storage/gcs.go:212-217 | the record being saved has the fields handed to the create that began last, and that create's clock reading as both times |
| StoreMachine.AcknowledgedProducerIsStamped | internal/storage/gcs.go:204-225 | so has an acknowledged producer in the durable object, at every later point |
| StoreMachine.AcknowledgedJobTypeIsStamped | internal/storage/gcs.go:253-279 | and an acknowledged job type, under its flat key |
| StoreMachine.ReadsAreNeverTakenBack | internal/storage/gcs.go:228-238 | no read returns a record that a later read, even after crashes, does not return |
| StoreMachine.ListingsAreNeverTakenBack | internal/storage/gcs.go:241-250 | what a listing of producers or job types returned is in every later listing and found by every later lookup, even after crashes |
| StoreMachine.FailedCreateRestoresMemory | internal/storage/gcs.go:219-222 | a create whose save failed leaves exactly the memory it found, whatever happened in between |
| StoreMachine.LastWriteDecides | internal/storage/gcs.go:147-201 | at every point of a run an object holds the keys that memory held when it was last replaced |
| StoreMachine.OnlyLastWriteIsAhead | internal/storage/gcs.go:219-222 | what an object holds beyond the committed records is exactly the record its last replacement was saving, unless that one is committed: at most one |
| StoreMachine.FailedCreateMayReappear | internal/storage/gcs.go:219-222 | a run in which a create reports failure and its record is found after a crash |
| StoreMachine.NothingIsInvented | internal/storage/gcs.go:69-97 | every record, durable or in memory, was there at the start or was handed to a create of the run |
| Stores.Values | internal/storage/gcs.go:147-151 | walking a map in any order lists each value once and nothing else |
| Stores.TypesOf | internal/storage/gcs.go:300-306 | the listing loop keeps exactly one producer's job types, each once |
| Stores.MemoryStore.constructor | internal/storage/memory.go:22-27 | starts with two empty maps |
| Stores.MemoryStore.CreateProducer | internal/storage/memory.go:30-44 | refuses a taken identifier; otherwise stores and returns the argument's fields with the clock reading as both times, and changes nothing else |
| Stores.MemoryStore.GetProducer | internal/storage/memory.go:47-57 | finds exactly the registered producer |
| Stores.MemoryStore.ListProducers | internal/storage/memory.go:60-69 | lists each producer once |
| Stores.MemoryStore.CreateJobType | internal/storage/memory.go:72-91 | refuses an unknown producer, then a taken key; otherwise stores the argument's fields with the clock reading as both times under "producer:name" |
| Stores.MemoryStore.GetJobType | internal/storage/memory.go:94-105 | finds exactly what is under the flat key |
| Stores.MemoryStore.ListJobTypes | internal/storage/memory.go:108-119 | lists one producer's job types, each once |
| Stores.LoadProducers | internal/storage/gcs.go:85-88 | loading a list keeps the last producer for each identifier and nothing else |
| Stores.LoadJobTypes | internal/storage/gcs.go:90-94 | loading a list keeps the last job type for each "producer:name" and nothing else |
| Stores.GCSStore.constructor | internal/storage/gcs.go:69-97 | loads exactly what the two objects hold, as the machine's two reading steps do |
| Stores.GCSStore.SaveProducers | internal/storage/gcs.go:147-173 | the object becomes a listing of the map, or stays, and may become one although failure is reported |
| Stores.GCSStore.SaveJobTypes | internal/storage/gcs.go:175-201 | the same for job types |
| Stores.GCSStore.CreateProducer | internal/storage/gcs.go:204-225 | refuses a taken identifier; otherwise the record has the argument's fields and the clock reading as both times, and is in memory exactly if the save succeeded; the call is a path of the machine |
| Stores.GCSStore.GetProducer | internal/storage/gcs.go:228-238 | agrees with the plain maps and is a step of the machine |
| Stores.GCSStore.ListProducers | internal/storage/gcs.go:241-250 | lists each producer once and is a step of the machine |
| Stores.GCSStore.CreateJobType | internal/storage/gcs.go:253-279 | refuses an unknown producer, then a taken key; otherwise the stamped record is in memory under "producer:name" exactly if the save succeeded; the call is a path of the machine |
| Stores.GCSStore.GetJobType | internal/storage/gcs.go:282-293 | agrees with the plain maps and is a step of the machine |
| Stores.GCSStore.ListJobTypes | internal/storage/gcs.go:296-307 | lists one producer's job types, each once, and is a step of the machine |
| Fanout.FanoutTerminates | internal/queue/pubsub.go:165-191 | some goroutine or the loop can move until all is done, and every move is progress |
| Fanout.FanoutIsPointwise | internal/queue/pubsub.go:165-191 | in every order of completion each slot gets what its job alone decides |
| Fanout.FinishesOnce | internal/scheduler/cloudtasks.go:129-139 | each goroutine of a finished fan-out finishes exactly once |
| Fanout.ResultsStay | internal/queue/pubsub.go:176-189 | a slot that was written is never written again |
| Fanout.OrderMattersIff | internal/scheduler/cloudtasks.go:125-143 | the order of completion changes results or tasks if and only if two jobs compete for a free task name |
| Fanout.FanOut | internal/queue/pubsub.go:165-191 | the loop and its goroutines, interleaved anyhow, are an execution of the machine that finishes |
| PubSub.PubSubBackend.constructor | internal/queue/pubsub.go:57-70 | there is a topic for exactly the priorities whose name is configured |
| PubSub.EmittedMeans | internal/queue/pubsub.go:87-130 | the message that the specification gives for a job goes to the job's own topic or else to the medium one, with the marshalled job and its shadow mark |
| PubSub.PubSubBackend.Enqueue | internal/queue/pubsub.go:99-130 | adds one message, with the marshalled job and its shadow mark, to the topic of the job's priority or else the medium one; reports no error exactly if it could be published and was acknowledged |
| PubSub.PubSubBackend.PublishOne | internal/queue/pubsub.go:145-162 | the same for one job of a bulk call, its outcome settled under its own identifier |
| PubSub.PubSubBackend.PublishAll | internal/queue/pubsub.go:143-163 | publishes the same messages, in order, as enqueuing the jobs one by one |
| PubSub.PubSubBackend.EnqueueBulk | internal/queue/pubsub.go:133-204 | whatever order the goroutines finish in, each result names its job and has no error exactly if that job could be published and was acknowledged |
| CloudTasks.TaskNameInjective | internal/scheduler/cloudtasks.go:83 | different identifiers have different task names |
| CloudTasks.CloudTasksScheduler.Schedule | internal/scheduler/cloudtasks.go:67-122 | creates the task "queue/tasks/id" with the job's body exactly if the body has at most 97280 bytes, the service is reached and the name is free; no error exactly if it did and the answer arrived |
| CloudTasks.CloudTasksScheduler.ScheduleBulk | internal/scheduler/cloudtasks.go:125-143 | is an execution of the fan-out; with distinct identifiers exactly the tasks are added that each job creates alone, and each result says so |
| CloudTasks.FanOutSchedulesAll | internal/scheduler/cloudtasks.go:125-143 | what a finished fan-out amounts to, job by job and task by task |
| CloudTasks.DistinctIdsDoNotClash | internal/scheduler/cloudtasks.go:125-143 | distinct identifiers leave nothing to compete for |
| CloudTasks.LargePayloadIsRefused | internal/scheduler/cloudtasks.go:19 | a payload above 72960 bytes is never scheduled and changes nothing |
| TaskCodec.UnmarshalMarshal | internal/scheduler/scheduler.go:43-87 | a task body gives the job back, every field of it, if and only if both instants have a four-digit year |
| TaskCodec.MarshalDescribes | internal/scheduler/scheduler.go:43-57 | a body decodes to a record with each field of the job in its place |
| TaskCodec.UnmarshalMeans | internal/scheduler/scheduler.go:60-87 | any body at all: it can be read exactly if it decodes and both instants parse, and then gives the job field by field |
| TaskCodec.BodyHoldsPayload | internal/scheduler/scheduler.go:29-40 | the body is at least as long as the payload's base64 text |
| Server.RoutingFollowsRegistry | internal/api/server.go:357-383 | for an unshadowed producer the job-type warning appears if and only if no job type was registered for that pair and the payload does not route the job; a registered one decides queue and retries |
| Server.DecisionMeans | internal/api/server.go:82-160 | a request is refused exactly for an empty producer, an empty type or a payload that is too long, in that order; otherwise the job has the request's own fields, the call's shadow mark, the readings of the clock and the routing of payload, registry or defaults, and is deferred exactly if it is due late enough |
| Server.Admit | internal/api/server.go:96-135 | a valid request becomes that job and gets exactly the warnings for an unknown producer and an unregistered job type |
| Server.Enqueue | internal/api/server.go:82-179 | refuses as above or hands one such job over, once, to one service, and replies as that service answers |
| Server.PrepareAll | internal/api/server.go:193-254 | fills the four slices with each request's own decision |
| Server.PrepareOne | internal/api/server.go:198-254 | one request of a batch is refused with its own error or prepared as a job made from its own fields, with its warnings |
| Server.PreparedMeans | internal/api/server.go:198-254 | the error and reason texts of a refused request, and what is prepared for a valid one |
| Server.Partition | internal/api/server.go:256-274 | splits the jobs into the two lists and index maps of the decisions |
| Server.PositionsExact | internal/api/server.go:256-274 | the index lists are strictly increasing and hold exactly the admitted requests of their kind |
| Server.JobsAtPositions | internal/api/server.go:256-274 | the job at each place of a list is that of the request at the same place of the index list |
| Server.Scatter | internal/api/server.go:306-317 | answers go to the listed positions, short answers are skipped, nothing else changes |
| Server.BuildResults | internal/api/server.go:288-304 | each result starts with its own index, warnings and correlation identifier, or its validation error |
| Server.EnqueueBulk | internal/api/server.go:182-353 | each valid job reaches exactly one service once in request order, and each position holds its own answer |
| Server.BulkOutcomeMeans | internal/api/server.go:182-353 | a batch said without the decisions: which requests are in which list, in request order, which jobs are made from them, and what each result says |
| Server.BulkRefinesSingle | internal/api/server.go:182-353 | given services whose bulk calls answer these two lists as their single calls would, each result is the reply that Enqueue gives to that request alone; BulkDelivery.BatchOfDistinctJobs and BatchRefinesSingles derive that for the classes |
| Server.ExactlyOneOfIdAndError | internal/api/server.go:288-330 | exactly one of job identifier and error is set, and the correlation identifier is the request's |
| Delivery.CallbackHandler.HandleEnqueueCallback | internal/api/callback.go:38-71 | answers 400 to an unreadable body, 500 to a failed publish and 200 otherwise; what it publishes is the decoded job with its run time replaced by the handler's clock reading |
| Delivery.StepKeepsInv | internal/api/callback.go:48-70 | submissions and callbacks, however they end, keep every accepted job published or parked |
| Delivery.NoAcceptedJobIsLost | internal/api/callback.go:48-70 | at every later point of a run an accepted job is published or has a pending task; that body decodes to it if and only if its instants have four-digit years |
| Delivery.TaskLeavesOnlyWhenPublished | internal/api/callback.go:60-70 | a task disappears only in a step that publishes the job in its body |
| Delivery.NothingElseIsPublished | internal/api/callback.go:48-58 | every message was made from a submitted job with only its run time replaced |
| Delivery.StepExplains | internal/api/callback.go:48-58 | a step adds at most one message: a callback's is its job with that callback's clock reading, a request's is its job with its own run time |
| Delivery.EveryMessageIsExplained | internal/api/callback.go:48-58 | so every message of a run goes back to the step that made it, with that step's run time, topic and shadow mark |
| Delivery.EveryJobWasRequested | internal/api/server.go:123-135 | every submitted job has, field by field, what some request of the run asked for |
| Delivery.EveryMessageWasRequested | internal/api/server.go:123-135 | and so has the job of every published message |
| Delivery.EveryTaskWasRequested | internal/scheduler/scheduler.go:43-57 | and so does the body of every pending task say, field by field |
| Delivery.CallbackRemoves | internal/api/callback.go:60-70 | a callback removes its own task, and no other, exactly if the job was readable, published, acknowledged and the answer arrived |
| Delivery.DeferralKeepsRoute | internal/queue/pubsub.go:87-96 | a deferred job goes to the topic, with the shadow mark, that it would have had if sent at once |
| Delivery.PendingTasksAreSmall | internal/scheduler/cloudtasks.go:70-79 | every pending task of every run has at most 97280 bytes, and its job at most 72960 bytes of payload |
| Delivery.UnreadableTaskStays | internal/api/callback.go:48-53 | a callback for an unreadable body changes nothing |
| Delivery.UnreadableTaskStaysForever | internal/api/callback.go:48-53 | so such a task is there at every later point of the run |
| Delivery.UnreadableTaskArises | internal/scheduler/scheduler.go:43-57 | an accepted deferred job has a task that cannot be read if and only if one of its instants has no four-digit year |
| Delivery.FarRequestIsStuck | internal/api/server.go:114-160 | the run of one concrete request, for the first instant of the year 10000: the job is accepted and its task cannot be read |
| Delivery.CallbackDelivers | internal/api/callback.go:38-71 | a callback delivers a parked job if and only if its body is readable, the job is publishable and the publish is not dropped |
| Delivery.BackendIsPointwise | internal/queue/pubsub.go:133-204 | any results that the backend's bulk method may return report for each job what its single method would |
| Delivery.SchedulerIsPointwise | internal/scheduler/cloudtasks.go:125-143 | so do any results of the scheduler's goroutines, in any order, for jobs with distinct identifiers |
| Delivery.AcceptedMeansAccepted | internal/api/server.go:144-178 | the caller is given a job identifier exactly when the job joins the accepted ones, in any state |
| BulkDelivery.EventIsStep | internal/api/server.go:276-286 | handing a request of a batch over does what submitting that request alone does in that state |
| BulkDelivery.HandedOverOnce | internal/api/server.go:256-286 | no request of a batch is handed over twice, whatever happens meanwhile |
| BulkDelivery.BatchRefinesSingles | internal/api/server.go:182-353 | each admitted request is handed over, and each result of the response is what Enqueue would reply to that request alone at that moment, among other requests and callbacks and without any condition on identifiers |
| BulkDelivery.NamedJobIsAccepted | internal/api/server.go:306-330 | a result names a job identifier only if that job is accepted when the batch is done; a result without one had nothing accepted |
| BulkDelivery.BatchProlongsRun | internal/api/server.go:276-286 | a batch handled during a run, among other steps, leads to a state of a longer run, so what holds of every run holds after batches |
| BulkDelivery.BulkMethodsAreHandling | internal/queue/pubsub.go:133-204 | what the two bulk methods promise amounts to a completed handling with exactly their results, messages and tasks |
| BulkDelivery.PlanOf | internal/api/server.go:256-286 | any batch has a plan with the server's two lists and the scheduler's goroutines |
| BulkDelivery.DecisionsOfCall | internal/api/server.go:189-254 | the submissions of one call have the decisions that the server makes in it |
| BulkDelivery.BatchOfDistinctJobs | internal/api/server.go:182-353 | with what the classes' bulk methods return and distinct identifiers, each result is the reply Enqueue gives to that request alone before the batch |
| Service.Deployment.constructor | cmd/jack/main.go:136-153 | a new deployment is the protocol's first state |
| Service.Deployment.PublishNow | internal/api/server.go:162-168 | calling the real backend for a job publishes what the protocol's submission publishes |
| Service.Deployment.HandOver | internal/api/server.go:144-168 | calling the real service for a job does what the protocol's submission does and reports its error |
| Service.Deployment.Submit | internal/api/server.go:82-179 | the server on the real backend and scheduler performs a submission step and replies as that step's answer says |
| Service.Deployment.Callback | internal/api/callback.go:38-71 | the handler, called by the task service, performs a callback step |

## Left out

- Wiring of gRPC, HTTP, shutdown and configuration, and the conversion of protobuf messages: no hard invariant.
- The no-op backend and scheduler: they report success without delivering, so the delivery results are not about them.
- Metrics, tags, logs, durations and the wording of errors; the texts that bulk results carry are kept only where the code compares or stores them.
- SHA-256, CRC-32, the random source, JSON syntax and time formatting themselves: parameters with the laws stated above. JSON round trips need valid UTF-8 text, which strings are in the model and protobuf guarantees.
- Several service instances sharing one bucket: each would overwrite the other's objects; the machine has one process. Writes that take effect only after a failed save has returned are left out for the same reason, and a load that fails at startup is a process that stays down.
- Aliasing of stored records: the stores copy them on the way in and out, so records are values here. The caller's record, which a create stamps in place, is returned as `stamped`.
- Read locks: reads are atomic steps between writes; readers that run at the same time as each other are not distinguished.
- The task service's own limits (how far ahead a task may lie, names reserved for a while after deletion, the maximum number of attempts) and delivery order on a topic.
- Saturation of the remaining time until a run time, and the order of clock readings: each request has readings of its own.
- A restart with other topics, another task queue or another message format: these are fixed during a run, while requests may differ in everything else.
- The legacy message format, which re-encodes the payload as raw JSON and stamps a publish time: publishing uses an arbitrary partial function from jobs to bytes, so that stamp is not modelled.
- Field checks in the admin service, `Job.Validate` and names of enumeration values: each is one branch.
- Server.EnqueueBulk: takes the two services as functions from jobs to answers, since it calls each at most once; BulkDelivery.BulkMethodsAreHandling and BulkDelivery.BatchOfDistinctJobs connect it to the classes' contracts, not a call from one class to another.
- Service.Deployment.Submit: the server is given the answers beforehand, as functions; that the objects then give these very answers is asserted in the method.
- BulkDelivery.BatchRefinesSingles: a job counts as published when the publish call is made; that the client library sends the message a little later is not distinguished.
- Fanout.FanOut: goroutines are interleaved moves of one method, each atomic, since each writes only its own slot.
- Delivery.NoAcceptedJobIsLost: says that a parked job stays parked until it is published, not that callbacks keep coming.
