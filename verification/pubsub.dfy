/** The Pub/Sub backend: one topic per priority, a single and a bulk way to publish. */
module PubSub {
  import opened Wrappers
  import opened Jobs
  import opened Fanout

  datatype Message = Message(topic: string, data: seq<byte>, shadow: bool)

  type Topics = map<Priority, string>

  /** Which of the source's configured names are non-empty decides which topics there are. */
  datatype Config = Config(high: string, medium: string, low: string, immediate: string)

  /** How publishing one message can end; Lost is published although an error is reported. */
  datatype Fate = Acked | Lost | Dropped

  const NO_TOPIC := "pubsub: no topic configured"
  const MARSHAL_FAILED := "pubsub: marshal"
  const PUBLISH_FAILED := "pubsub: publish"

  function TopicFor(topics: Topics, p: Priority): Option<string> {
    if p in topics then Some(topics[p])
    else if MEDIUM in topics then Some(topics[MEDIUM])
    else None
  }

  /** The message a job becomes, or why it cannot become one. */
  datatype Prepared = Ready(message: Message) | Unpublishable(why: string)

  function Prepare(topics: Topics, marshal: Job -> Option<seq<byte>>, job: Job): Prepared {
    match TopicFor(topics, job.priority)
    case None => Unpublishable(NO_TOPIC)
    case Some(topic) =>
      match marshal(job)
      case None => Unpublishable(MARSHAL_FAILED)
      case Some(data) => Ready(Message(topic, data, job.shadow))
  }

  function ErrorOf(prepared: Prepared, fate: Fate): Option<string> {
    match prepared
    case Unpublishable(why) => Some(why)
    case Ready(_) => if fate.Acked? then None else Some(PUBLISH_FAILED)
  }

  function Emitted(prepared: Prepared, fate: Fate): seq<Message> {
    if prepared.Ready? && !fate.Dropped? then [prepared.message] else []
  }

  /** The topics say where a job of this priority goes: to its own topic, else to the medium one. */
  predicate Routes(topics: Topics, priority: Priority, topic: string) {
    if priority in topics then topic == topics[priority] else 3 in topics && topic == topics[3]
  }

  predicate Publishable(topics: Topics, marshal: Job -> Option<seq<byte>>, job: Job) {
    (job.priority in topics || 3 in topics) && marshal(job).Some?
  }

  /** What enqueuing a job means: the messages it adds and whether it reports an error. */
  predicate Sends(topics: Topics, marshal: Job -> Option<seq<byte>>, job: Job, fate: Fate,
                  added: seq<Message>, failed: bool) {
    && (failed <==> !(Publishable(topics, marshal, job) && fate.Acked?))
    && |added| == (if Publishable(topics, marshal, job) && !fate.Dropped? then 1 else 0)
    && forall m :: m in added ==>
         Routes(topics, job.priority, m.topic) && m.data == marshal(job).value && m.shadow == job.shadow
  }

  lemma EmittedMeans(topics: Topics, marshal: Job -> Option<seq<byte>>, job: Job, fate: Fate)
    ensures var prepared := Prepare(topics, marshal, job);
            Sends(topics, marshal, job, fate, Emitted(prepared, fate), ErrorOf(prepared, fate).Some?)
  {
  }

  /** The messages that enqueuing the jobs one by one would publish, in order. */
  function EmittedAll(topics: Topics, marshal: Job -> Option<seq<byte>>, jobs: seq<Job>, fates: seq<Fate>): seq<Message>
    requires |jobs| == |fates|
  {
    if jobs == [] then [] else
      var n := |jobs| - 1;
      EmittedAll(topics, marshal, jobs[..n], fates[..n]) + Emitted(Prepare(topics, marshal, jobs[n]), fates[n])
  }

  lemma EmittedAllNext(topics: Topics, marshal: Job -> Option<seq<byte>>, jobs: seq<Job>, fates: seq<Fate>, i: nat)
    requires |jobs| == |fates| && i < |jobs|
    ensures EmittedAll(topics, marshal, jobs[..i + 1], fates[..i + 1])
         == EmittedAll(topics, marshal, jobs[..i], fates[..i]) + Emitted(Prepare(topics, marshal, jobs[i]), fates[i])
  {
    assert jobs[..i + 1][..i] == jobs[..i] && fates[..i + 1][..i] == fates[..i];
  }

  function ResultOf(topics: Topics, marshal: Job -> Option<seq<byte>>, job: Job, fate: Fate): EnqueueResult {
    EnqueueResult(job.id, ErrorOf(Prepare(topics, marshal, job), fate))
  }

  /** What enqueuing the jobs one by one would report. */
  function ResultsOf(topics: Topics, marshal: Job -> Option<seq<byte>>, jobs: seq<Job>, fates: seq<Fate>)
    : (r: seq<EnqueueResult>)
    requires |jobs| == |fates|
    ensures |r| == |jobs|
  {
    seq(|jobs|, i requires 0 <= i < |jobs| => ResultOf(topics, marshal, jobs[i], fates[i]))
  }

  /** The slot's outcome is certain, whether or not a goroutine still has to deliver it. */
  predicate Settled(slot: Slot, result: EnqueueResult) {
    !slot.Create? && slot.result == result
  }

  class PubSubBackend {
    var topics: Topics
    const marshal: Job -> Option<seq<byte>>
    var published: seq<Message>

    constructor (cfg: Config, marshal: Job -> Option<seq<byte>>)
      ensures this.marshal == marshal && published == []
      ensures forall p :: p in topics <==>
                || (p == HIGH && cfg.high != "") || (p == MEDIUM && cfg.medium != "")
                || (p == LOW && cfg.low != "") || (p == IMMEDIATE && cfg.immediate != "")
      ensures forall p :: p in topics ==>
                topics[p] == if p == HIGH then cfg.high else if p == MEDIUM then cfg.medium
                             else if p == LOW then cfg.low else cfg.immediate
    {
      this.marshal := marshal;
      published := [];
      var ts: Topics := map[];
      if cfg.high != "" { ts := ts[HIGH := cfg.high]; }
      if cfg.medium != "" { ts := ts[MEDIUM := cfg.medium]; }
      if cfg.low != "" { ts := ts[LOW := cfg.low]; }
      if cfg.immediate != "" { ts := ts[IMMEDIATE := cfg.immediate]; }
      topics := ts;
    }

    method Enqueue(job: Job, fate: Fate) returns (error: Option<string>)
      modifies this`published
      ensures error == ErrorOf(Prepare(topics, marshal, job), fate)
      ensures published == old(published) + Emitted(Prepare(topics, marshal, job), fate)
      ensures |old(published)| <= |published| && published[..|old(published)|] == old(published)
      ensures Sends(topics, marshal, job, fate, published[|old(published)|..], error.Some?)
    {
      EmittedMeans(topics, marshal, job, fate);
      var topic := TopicFor(topics, job.priority);
      if topic.None? {
        return Some(NO_TOPIC);
      }
      var data := marshal(job);
      if data.None? {
        return Some(MARSHAL_FAILED);
      }
      if !fate.Dropped? {
        published := published + [Message(topic.value, data.value, job.shadow)];
      }
      if !fate.Acked? {
        return Some(PUBLISH_FAILED);
      }
      error := None;
    }

    /** The body of the publishing loop; the source leaves it early when there is nothing to publish. */
    method PublishOne(job: Job, fate: Fate) returns (slot: Slot, ghost added: seq<Message>)
      modifies this`published
      ensures Settled(slot, ResultOf(topics, marshal, job, fate))
      ensures published == old(published) + Emitted(Prepare(topics, marshal, job), fate)
      ensures published == old(published) + added && !slot.Create? && slot.result.jobId == job.id
      ensures Sends(topics, marshal, job, fate, added, slot.result.error.Some?)
    {
      added := Emitted(Prepare(topics, marshal, job), fate);
      EmittedMeans(topics, marshal, job, fate);
      var topic := TopicFor(topics, job.priority);
      if topic.None? {
        return Inline(EnqueueResult(job.id, Some(NO_TOPIC))), added;
      }
      var data := marshal(job);
      if data.None? {
        return Inline(EnqueueResult(job.id, Some(MARSHAL_FAILED))), added;
      }
      if !fate.Dropped? {
        published := published + [Message(topic.value, data.value, job.shadow)];
      }
      slot := Await(EnqueueResult(job.id, if fate.Acked? then None else Some(PUBLISH_FAILED)));
    }

    /** The loop that publishes: each job's slot is settled here, or by its publish result. */
    method PublishAll(jobs: seq<Job>, fates: seq<Fate>) returns (pending: array<Slot>)
      requires |fates| == |jobs|
      modifies this`published
      ensures fresh(pending) && pending.Length == |jobs|
      ensures forall i :: 0 <= i < |jobs| ==> Settled(pending[i], ResultOf(topics, marshal, jobs[i], fates[i]))
      ensures published == old(published) + EmittedAll(topics, marshal, jobs, fates)
    {
      pending := new Slot[|jobs|](_ => Inline(UNSET));
      for i := 0 to |jobs|
        invariant published == old(published) + EmittedAll(topics, marshal, jobs[..i], fates[..i])
        invariant forall k :: 0 <= k < i ==> Settled(pending[k], ResultOf(topics, marshal, jobs[k], fates[k]))
      {
        EmittedAllNext(topics, marshal, jobs, fates, i);
        var slot, _ := PublishOne(jobs[i], fates[i]);
        pending[i] := slot;
      }
      assert jobs[..|jobs|] == jobs && fates[..|jobs|] == fates;
    }

    /**
     * Publishes all jobs in order and collects their outcomes from goroutines. Whatever the
     * order in which these finish, each job gets the error Enqueue would report for it alone.
     */
    method EnqueueBulk(jobs: seq<Job>, fates: seq<Fate>) returns (results: seq<EnqueueResult>)
      requires |fates| == |jobs|
      modifies this`published
      ensures results == ResultsOf(topics, marshal, jobs, fates)
      ensures |results| == |jobs| && forall i :: 0 <= i < |jobs| ==>
                && results[i].jobId == jobs[i].id
                && (results[i].error.None? <==> Publishable(topics, marshal, jobs[i]) && fates[i].Acked?)
      ensures published == old(published) + EmittedAll(topics, marshal, jobs, fates)
    {
      var pending := PublishAll(jobs, fates);
      var slots := pending[..];
      assert NoClash(slots, map[]);
      var untouched: Tasks;
      ghost var moves;
      results, untouched, moves := FanOut(slots, map[]);
      assert forall i :: 0 <= i < |jobs| ==> results[i] == Outcome(slots[i], map[]);
    }
  }
}
