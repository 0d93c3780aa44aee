/** The body of a scheduled task: a job as JSON, with its instants as RFC 3339 text. */
module TaskCodec {
  import opened Wrappers
  import opened Jobs

  datatype ScheduledJob = ScheduledJob(id: string, producerId: string, jobType: string, priority: int,
                                       payload: seq<byte>, runAt: string, traceId: string, maxRetries: int,
                                       createdAt: string, shadow: bool)

  /** The library's JSON and time conversions; instants are nanoseconds since 1970 in UTC. */
  datatype Codec = Codec(encode: ScheduledJob -> seq<byte>, decode: seq<byte> -> Option<ScheduledJob>,
                         format: int -> string, parse: string -> Option<int>)

  const NANOS: int := 1_000_000_000

  /** The instants that text with a four-digit year can name: the years 0 to 9999. */
  predicate Representable(t: int) {
    -62_167_219_200 * NANOS <= t < 253_402_300_800 * NANOS
  }

  /** Length of n bytes in base64 with padding, section 4 of RFC 4648. */
  function Base64Length(n: nat): nat {
    (n + 2) / 3 * 4
  }

  /**
   * What the library promises: decoding inverts encoding, the payload is in the body in
   * base64, and parsing inverts formatting for the years that have four digits, only.
   */
  ghost predicate Lawful(codec: Codec) {
    && (forall sj: ScheduledJob :: codec.decode(codec.encode(sj)) == Some(sj))
    && (forall sj: ScheduledJob :: |codec.encode(sj)| >= Base64Length(|sj.payload|))
    && (forall t: int :: codec.parse(codec.format(t)) == if Representable(t) then Some(t) else None)
  }

  function MarshalJob(codec: Codec, job: Job): seq<byte> {
    codec.encode(ScheduledJob(job.id, job.producerId, job.jobType, job.priority, job.payload, codec.format(job.runAt),
                              job.traceId, job.maxRetries, codec.format(job.createdAt), job.shadow))
  }

  function UnmarshalJob(codec: Codec, body: seq<byte>): Option<Job> {
    match codec.decode(body)
    case None => None
    case Some(sj) =>
      var runAt := codec.parse(sj.runAt);
      var createdAt := codec.parse(sj.createdAt);
      if runAt.None? || createdAt.None? then None
      else Some(Job(sj.id, sj.producerId, sj.jobType, sj.priority, sj.payload, runAt.value, sj.traceId, sj.maxRetries,
                    createdAt.value, sj.shadow))
  }

  /** A body gives the job back, all of it, exactly if both instants have a four-digit year. */
  lemma UnmarshalMarshal(codec: Codec, job: Job)
    requires Lawful(codec)
    ensures UnmarshalJob(codec, MarshalJob(codec, job))
         == if Representable(job.runAt) && Representable(job.createdAt) then Some(job) else None
  {
  }

  /** Field by field, what a body says about its job. */
  predicate Describes(codec: Codec, sj: ScheduledJob, job: Job) {
    && sj.id == job.id && sj.producerId == job.producerId && sj.jobType == job.jobType
    && sj.priority == job.priority && sj.payload == job.payload && sj.traceId == job.traceId
    && sj.maxRetries == job.maxRetries && sj.shadow == job.shadow
    && sj.runAt == codec.format(job.runAt) && sj.createdAt == codec.format(job.createdAt)
  }

  lemma MarshalDescribes(codec: Codec, job: Job)
    requires Lawful(codec)
    ensures codec.decode(MarshalJob(codec, job)).Some?
    ensures Describes(codec, codec.decode(MarshalJob(codec, job)).value, job)
  {
  }

  /** Any body at all: which ones can be read, and as which job. */
  lemma UnmarshalMeans(codec: Codec, body: seq<byte>)
    ensures var sj, r := codec.decode(body), UnmarshalJob(codec, body);
            && (r.Some? <==> sj.Some? && codec.parse(sj.value.runAt).Some? && codec.parse(sj.value.createdAt).Some?)
            && (r.Some? ==>
                  var job := r.value;
                  && job.id == sj.value.id && job.producerId == sj.value.producerId && job.jobType == sj.value.jobType
                  && job.priority == sj.value.priority && job.payload == sj.value.payload
                  && job.traceId == sj.value.traceId && job.maxRetries == sj.value.maxRetries
                  && job.shadow == sj.value.shadow
                  && codec.parse(sj.value.runAt) == Some(job.runAt)
                  && codec.parse(sj.value.createdAt) == Some(job.createdAt))
  {
  }

  lemma BodyHoldsPayload(codec: Codec, job: Job)
    requires Lawful(codec)
    ensures |MarshalJob(codec, job)| >= Base64Length(|job.payload|) >= |job.payload| / 3 * 4
  {
  }
}
