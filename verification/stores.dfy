/** The two stores: plain maps in memory, and the same maps written through to a bucket. */
module Stores {
  import opened Wrappers
  import opened Records
  import opened StoreMachine

  /** Walks a map in whatever order and collects its values, as every listing loop does. */
  method Values<V>(m: map<string, V>, ghost key: V -> string) returns (xs: seq<V>)
    requires forall k :: k in m ==> key(m[k]) == k
    ensures Lists(xs, m, key)
  {
    xs := [];
    var keys := m.Keys;
    while keys != {}
      invariant keys <= m.Keys
      invariant forall i :: 0 <= i < |xs| ==> key(xs[i]) in m && key(xs[i]) !in keys && m[key(xs[i])] == xs[i]
      invariant forall i, j :: 0 <= i < j < |xs| ==> xs[i] != xs[j]
      invariant forall k :: k in m && k !in keys ==> m[k] in xs
      decreases keys
    {
      var k :| k in keys;
      assert forall i :: 0 <= i < |xs| ==> key(xs[i]) != key(m[k]);
      xs := xs + [m[k]];
      keys := keys - {k};
    }
  }

  /** Walks the job types and keeps those of one producer. */
  method TypesOf(r: Registry, producerId: string) returns (xs: seq<JobType>)
    requires WellKeyed(r)
    ensures ListsTypesOf(xs, r, producerId)
  {
    xs := [];
    var keys := r.jobTypes.Keys;
    while keys != {}
      invariant keys <= r.jobTypes.Keys
      invariant forall i, j :: 0 <= i < j < |xs| ==> xs[i] != xs[j]
      invariant forall t :: t in xs <==>
                  exists k :: k in r.jobTypes && k !in keys && r.jobTypes[k] == t && t.producerId == producerId
      decreases keys
    {
      var k :| k in keys;
      ghost var before := xs;
      var t := r.jobTypes[k];
      assert t !in xs;
      if t.producerId == producerId {
        xs := xs + [t];
      }
      keys := keys - {k};
      forall u
        ensures u in xs <==>
                exists k :: k in r.jobTypes && k !in keys && r.jobTypes[k] == u && u.producerId == producerId
      {
        if u == t && t.producerId == producerId {
          assert r.jobTypes[k] == u && k !in keys;
        }
      }
    }
  }

  /** Under each key of the listed values the map holds the last value with that key, and nothing else. */
  ghost predicate Loads<V>(xs: seq<V>, m: map<string, V>, key: V -> string) {
    && (forall k :: k in m ==> exists i :: 0 <= i < |xs| && key(xs[i]) == k)
    && forall i :: 0 <= i < |xs| && (forall j :: i < j < |xs| ==> key(xs[j]) != key(xs[i])) ==>
         key(xs[i]) in m && m[key(xs[i])] == xs[i]
  }

  lemma {:induction false} RebuildHoldsLast<V>(xs: seq<V>, key: V -> string, i: nat)
    requires i < |xs| && forall j :: i < j < |xs| ==> key(xs[j]) != key(xs[i])
    ensures key(xs[i]) in Rebuild(xs, key) && Rebuild(xs, key)[key(xs[i])] == xs[i]
  {
    if i < |xs| - 1 {
      RebuildHoldsLast(xs[..|xs| - 1], key, i);
    }
  }

  lemma RebuildLoads<V>(xs: seq<V>, key: V -> string, name: V -> string)
    requires forall x :: key(x) == name(x)
    ensures Loads(xs, Rebuild(xs, key), name)
  {
    RebuildKeyed(xs, key);
    forall k | k in Rebuild(xs, key)
      ensures exists i :: 0 <= i < |xs| && name(xs[i]) == k
    {
      var i :| 0 <= i < |xs| && xs[i] == Rebuild(xs, key)[k];
      assert name(xs[i]) == k;
    }
    forall i | 0 <= i < |xs| && (forall j :: i < j < |xs| ==> name(xs[j]) != name(xs[i]))
      ensures name(xs[i]) in Rebuild(xs, key) && Rebuild(xs, key)[name(xs[i])] == xs[i]
    {
      RebuildHoldsLast(xs, key, i);
    }
  }

  method LoadProducers(prods: seq<Producer>) returns (loaded: map<string, Producer>)
    ensures loaded == Rebuild(prods, ProducerKey)
    ensures Loads(prods, loaded, (p: Producer) => p.id)
  {
    loaded := map[];
    for i := 0 to |prods|
      invariant loaded == Rebuild(prods[..i], ProducerKey)
    {
      assert prods[..i + 1][..i] == prods[..i];
      loaded := loaded[prods[i].id := prods[i]];
    }
    assert prods[..|prods|] == prods;
    RebuildLoads(prods, ProducerKey, (p: Producer) => p.id);
  }

  method LoadJobTypes(types: seq<JobType>) returns (loaded: map<string, JobType>)
    ensures loaded == Rebuild(types, TypeKey)
    ensures Loads(types, loaded, (t: JobType) => t.producerId + ":" + t.name)
  {
    loaded := map[];
    for i := 0 to |types|
      invariant loaded == Rebuild(types[..i], TypeKey)
    {
      assert types[..i + 1][..i] == types[..i];
      loaded := loaded[JobTypeKey(types[i].producerId, types[i].name) := types[i]];
    }
    assert types[..|types|] == types;
    RebuildLoads(types, TypeKey, (t: JobType) => t.producerId + ":" + t.name);
  }

  class MemoryStore {
    var producers: map<string, Producer>
    var jobTypes: map<string, JobType>

    function View(): Registry
      reads this
    {
      Registry(producers, jobTypes)
    }

    constructor ()
      ensures View() == EMPTY
    {
      producers, jobTypes := map[], map[];
    }

    method CreateProducer(p: Producer, now: int) returns (error: Option<Error>, stamped: Producer)
      modifies this
      ensures (error, View()) == Records.CreateProducer(old(View()), p, now)
      ensures error == if p.id in old(producers) then Some(AlreadyExists) else None
      ensures error.None? ==> stamped == Producer(p.id, p.name, p.description, p.rateLimitRps, now, now)
      ensures producers == if error.None? then old(producers)[p.id := stamped] else old(producers)
      ensures jobTypes == old(jobTypes)
      ensures stamped == if error.None? then StampProducer(p, now) else p
    {
      stamped := p;
      if p.id in producers {
        return Some(AlreadyExists), stamped;
      }
      stamped := stamped.(createdAt := now);
      stamped := stamped.(updatedAt := now);
      producers := producers[p.id := stamped];
      error := None;
    }

    method GetProducer(id: string) returns (found: Option<Producer>)
      ensures found == Records.GetProducer(View(), id)
      ensures if found.Some? then id in producers && producers[id] == found.value else id !in producers
    {
      if id !in producers {
        return None;
      }
      found := Some(producers[id]);
    }

    method ListProducers() returns (xs: seq<Producer>)
      requires WellKeyed(View())
      ensures Lists(xs, producers, ProducerKey)
    {
      xs := Values(producers, ProducerKey);
    }

    method CreateJobType(t: JobType, now: int) returns (error: Option<Error>, stamped: JobType)
      modifies this
      ensures (error, View()) == Records.CreateJobType(old(View()), t, now)
      ensures error == if t.producerId !in old(producers) then Some(NotFound)
                       else if t.producerId + ":" + t.name in old(jobTypes) then Some(AlreadyExists) else None
      ensures error.None? ==>
                stamped == JobType(t.producerId, t.name, t.queue, t.maxRetries, t.description, now, now)
      ensures jobTypes == if error.None? then old(jobTypes)[t.producerId + ":" + t.name := stamped] else old(jobTypes)
      ensures producers == old(producers)
      ensures stamped == if error.None? then StampJobType(t, now) else t
    {
      stamped := t;
      if t.producerId !in producers {
        return Some(NotFound), stamped;
      }
      var key := JobTypeKey(t.producerId, t.name);
      if key in jobTypes {
        return Some(AlreadyExists), stamped;
      }
      stamped := stamped.(createdAt := now);
      stamped := stamped.(updatedAt := now);
      jobTypes := jobTypes[key := stamped];
      error := None;
    }

    method GetJobType(producerId: string, name: string) returns (found: Option<JobType>)
      ensures found == Records.GetJobType(View(), producerId, name)
      ensures var key := producerId + ":" + name;
              if found.Some? then key in jobTypes && jobTypes[key] == found.value else key !in jobTypes
    {
      var key := JobTypeKey(producerId, name);
      if key !in jobTypes {
        return None;
      }
      found := Some(jobTypes[key]);
    }

    method ListJobTypes(producerId: string) returns (xs: seq<JobType>)
      requires WellKeyed(View())
      ensures ListsTypesOf(xs, View(), producerId)
    {
      xs := TypesOf(View(), producerId);
    }
  }

  /** Two durable objects, each replaced as a whole. */
  class Bucket {
    var producersFile: Option<seq<Producer>>
    var jobTypesFile: Option<seq<JobType>>

    function Contents(): Disk
      reads this
    {
      Disk(producersFile, jobTypesFile)
    }
  }

  /** How saving an object can end: done, not done, or done although an error was reported. */
  datatype SaveOutcome = Saved | NotWritten | WrittenButFailed

  class GCSStore {
    const bucket: Bucket
    var producers: map<string, Producer>
    var jobTypes: map<string, JobType>

    function Memory(): Registry
      reads this
    {
      Registry(producers, jobTypes)
    }

    /** The store between calls, as a state of the machine. */
    function View(): State
      reads this, bucket
    {
      State(bucket.Contents(), Up(Memory(), Free))
    }

    ghost predicate Valid()
      reads this, bucket
    {
      Inv(View())
    }

    /** Starting up loads both objects; both loops keep the last entry for a key. */
    constructor (bucket: Bucket)
      ensures this.bucket == bucket && bucket.Contents() == old(bucket.Contents())
      ensures Memory() == Durable(bucket.Contents()) && WellKeyed(Memory())
      ensures Loads(Listed(bucket.producersFile), producers, (p: Producer) => p.id)
      ensures Loads(Listed(bucket.jobTypesFile), jobTypes, (t: JobType) => t.producerId + ":" + t.name)
      ensures Referential(Durable(bucket.Contents())) ==> Valid()
      ensures Path(State(bucket.Contents(), Down), [ReadProducersObject, ReadJobTypesObject], View())
    {
      this.bucket := bucket;
      var loaded := LoadProducers(Listed(bucket.producersFile));
      var loadedTypes := LoadJobTypes(Listed(bucket.jobTypesFile));
      this.producers := loaded;
      this.jobTypes := loadedTypes;
      new;
      DurableWellKeyed(bucket.Contents());
      ghost var down := State(bucket.Contents(), Down);
      ghost var half := State(bucket.Contents(), Booting(loaded));
      PathOne(half, ReadJobTypesObject, View());
      PathCons(down, ReadProducersObject, half, [ReadJobTypesObject], View());
      assert [ReadProducersObject] + [ReadJobTypesObject] == [ReadProducersObject, ReadJobTypesObject];
      if Referential(Durable(bucket.Contents())) {
        PathKeepsCommitted(down, [ReadProducersObject, ReadJobTypesObject], View());
      }
    }

    /** Marshals all producers and replaces the durable object, unless the write goes wrong. */
    method SaveProducers(outcome: SaveOutcome) returns (failed: bool)
      requires WellKeyed(Memory())
      modifies bucket`producersFile
      ensures failed == !outcome.Saved?
      ensures outcome.NotWritten? ==> bucket.producersFile == old(bucket.producersFile)
      ensures !outcome.NotWritten? ==>
                bucket.producersFile.Some? && Lists(bucket.producersFile.value, producers, ProducerKey)
    {
      var xs := Values(producers, ProducerKey);
      if !outcome.NotWritten? {
        bucket.producersFile := Some(xs);
      }
      failed := !outcome.Saved?;
    }

    method SaveJobTypes(outcome: SaveOutcome) returns (failed: bool)
      requires WellKeyed(Memory())
      modifies bucket`jobTypesFile
      ensures failed == !outcome.Saved?
      ensures outcome.NotWritten? ==> bucket.jobTypesFile == old(bucket.jobTypesFile)
      ensures !outcome.NotWritten? ==>
                bucket.jobTypesFile.Some? && Lists(bucket.jobTypesFile.value, jobTypes, TypeKey)
    {
      var xs := Values(jobTypes, TypeKey);
      if !outcome.NotWritten? {
        bucket.jobTypesFile := Some(xs);
      }
      failed := !outcome.Saved?;
    }

    method CreateProducer(p: Producer, now: int, outcome: SaveOutcome) returns (error: Option<Error>, stamped: Producer)
      requires WellKeyed(Memory())
      modifies this, bucket
      ensures WellKeyed(Memory()) && (old(Valid()) ==> Valid())
      ensures (error, Memory()) == CallResult(Records.CreateProducer(old(Memory()), p, now), old(Memory()), outcome)
      ensures error == if p.id in old(producers) then Some(AlreadyExists)
                       else if outcome.Saved? then None else Some(StorageFailure)
      ensures error != Some(AlreadyExists) ==>
                stamped == Producer(p.id, p.name, p.description, p.rateLimitRps, now, now)
      ensures producers == if error.None? then old(producers)[p.id := stamped] else old(producers)
      ensures jobTypes == old(jobTypes)
      ensures Path(old(View()), ProducerCall(old(Memory()), p, now, outcome), View())
      ensures stamped == if error == Some(AlreadyExists) then p else StampProducer(p, now)
    {
      ghost var s0 := View();
      stamped := p;
      if p.id in producers {
        PathOne(s0, RefuseProducer(p, now, AlreadyExists), View());
        return Some(AlreadyExists), stamped;
      }
      stamped := stamped.(createdAt := now);
      stamped := stamped.(updatedAt := now);
      producers := producers[p.id := stamped];
      ghost var s1 := State(bucket.Contents(), Up(Memory(), SavingProducer(stamped, false)));

      var failed := SaveProducers(outcome);
      if failed {
        producers := producers - {p.id};
        assert producers == old(producers);
        error := Some(StorageFailure);
      } else {
        error := None;
      }
      assert Step(s0, BeginProducer(p, now), s1);
      SavePath(s0, BeginProducer(p, now), s1, View(), outcome);
      CallKeepsInvariant(s0, [BeginProducer(p, now)] + SaveSteps(outcome), View());
    }

    method GetProducer(id: string) returns (found: Option<Producer>)
      ensures found == Records.GetProducer(Memory(), id)
      ensures if found.Some? then id in producers && producers[id] == found.value else id !in producers
      ensures Step(View(), Get(id, found), View())
    {
      if id !in producers {
        return None;
      }
      found := Some(producers[id]);
    }

    method ListProducers() returns (xs: seq<Producer>)
      requires WellKeyed(Memory())
      ensures Lists(xs, producers, ProducerKey)
      ensures Step(View(), List(xs), View())
    {
      xs := Values(producers, ProducerKey);
    }

    method CreateJobType(t: JobType, now: int, outcome: SaveOutcome) returns (error: Option<Error>, stamped: JobType)
      requires WellKeyed(Memory())
      modifies this, bucket
      ensures WellKeyed(Memory()) && (old(Valid()) ==> Valid())
      ensures (error, Memory()) == CallResult(Records.CreateJobType(old(Memory()), t, now), old(Memory()), outcome)
      ensures error == if t.producerId !in old(producers) then Some(NotFound)
                       else if t.producerId + ":" + t.name in old(jobTypes) then Some(AlreadyExists)
                       else if outcome.Saved? then None else Some(StorageFailure)
      ensures error != Some(NotFound) && error != Some(AlreadyExists) ==>
                stamped == JobType(t.producerId, t.name, t.queue, t.maxRetries, t.description, now, now)
      ensures jobTypes == if error.None? then old(jobTypes)[t.producerId + ":" + t.name := stamped] else old(jobTypes)
      ensures producers == old(producers)
      ensures Path(old(View()), JobTypeCall(old(Memory()), t, now, outcome), View())
      ensures stamped == if error == Some(AlreadyExists) || error == Some(NotFound) then t else StampJobType(t, now)
    {
      ghost var s0 := View();
      stamped := t;
      if t.producerId !in producers {
        PathOne(s0, RefuseJobType(t, now, NotFound), View());
        return Some(NotFound), stamped;
      }
      var key := JobTypeKey(t.producerId, t.name);
      if key in jobTypes {
        PathOne(s0, RefuseJobType(t, now, AlreadyExists), View());
        return Some(AlreadyExists), stamped;
      }
      stamped := stamped.(createdAt := now);
      stamped := stamped.(updatedAt := now);
      jobTypes := jobTypes[key := stamped];
      ghost var s1 := State(bucket.Contents(), Up(Memory(), SavingJobType(stamped, false)));

      var failed := SaveJobTypes(outcome);
      if failed {
        jobTypes := jobTypes - {key};
        assert jobTypes == old(jobTypes);
        error := Some(StorageFailure);
      } else {
        error := None;
      }
      assert Step(s0, BeginJobType(t, now), s1);
      SavePath(s0, BeginJobType(t, now), s1, View(), outcome);
      CallKeepsInvariant(s0, [BeginJobType(t, now)] + SaveSteps(outcome), View());
    }

    method GetJobType(producerId: string, name: string) returns (found: Option<JobType>)
      ensures found == Records.GetJobType(Memory(), producerId, name)
      ensures var key := producerId + ":" + name;
              if found.Some? then key in jobTypes && jobTypes[key] == found.value else key !in jobTypes
      ensures Step(View(), GetType(producerId, name, found), View())
    {
      var key := JobTypeKey(producerId, name);
      if key !in jobTypes {
        return None;
      }
      found := Some(jobTypes[key]);
    }

    method ListJobTypes(producerId: string) returns (xs: seq<JobType>)
      requires WellKeyed(Memory())
      ensures ListsTypesOf(xs, Memory(), producerId)
      ensures Step(View(), ListTypes(producerId, xs), View())
    {
      xs := TypesOf(Memory(), producerId);
    }
  }

  // ---------- calls and the machine ----------

  /** A create agrees with the reference, except that a failed save leaves everything as it was. */
  function CallResult(reference: (Option<Error>, Registry), before: Registry, outcome: SaveOutcome)
    : (Option<Error>, Registry)
  {
    if reference.0.Some? || outcome.Saved? then reference else (Some(StorageFailure), before)
  }

  /** The steps of the machine that a save goes through once the record is in memory. */
  function SaveSteps(outcome: SaveOutcome): seq<Label> {
    match outcome
    case Saved => [WriteObject, SaveSucceeds]
    case NotWritten => [SaveFails]
    case WrittenButFailed => [WriteObject, SaveFails]
  }

  function ProducerCall(r: Registry, p: Producer, now: int, outcome: SaveOutcome): seq<Label> {
    if p.id in r.producers then [RefuseProducer(p, now, AlreadyExists)]
    else [BeginProducer(p, now)] + SaveSteps(outcome)
  }

  function JobTypeCall(r: Registry, t: JobType, now: int, outcome: SaveOutcome): seq<Label> {
    if t.producerId !in r.producers then [RefuseJobType(t, now, NotFound)]
    else if TypeKey(t) in r.jobTypes then [RefuseJobType(t, now, AlreadyExists)]
    else [BeginJobType(t, now)] + SaveSteps(outcome)
  }

  lemma PathOne(s: State, l: Label, s': State)
    requires Step(s, l, s')
    ensures Path(s, [l], s')
  {
    assert [l][1..] == [];
    assert Path(s', [], s');
  }

  lemma PathCons(s: State, l: Label, m: State, rest: seq<Label>, s': State)
    requires Step(s, l, m) && Path(m, rest, s')
    ensures Path(s, [l] + rest, s')
  {
    assert ([l] + rest)[0] == l && ([l] + rest)[1..] == rest;
  }

  lemma SavePath(s0: State, begin: Label, s1: State, s3: State, outcome: SaveOutcome)
    requires begin.BeginProducer? || begin.BeginJobType?
    requires Step(s0, begin, s1)
    requires if outcome.NotWritten? then s3.disk == s1.disk
             else Replaces(s1.disk, s1.process.mem, s1.process.lock, s3.disk)
    requires var mem := if outcome.Saved? then s1.process.mem else RolledBack(s1.process.mem, s1.process.lock);
             s3.process == Up(mem, Free)
    ensures Path(s0, [begin] + SaveSteps(outcome), s3)
  {
    var last := if outcome.Saved? then SaveSucceeds else SaveFails;
    if outcome.NotWritten? {
      PathOne(s1, last, s3);
    } else {
      var s2 := State(s3.disk, Up(s1.process.mem, Written(s1.process.lock)));
      PathOne(s2, last, s3);
      PathCons(s1, WriteObject, s2, [last], s3);
      assert [WriteObject] + [last] == SaveSteps(outcome);
    }
    PathCons(s0, begin, s1, SaveSteps(outcome), s3);
  }

  lemma CallKeepsInvariant(s: State, labels: seq<Label>, s': State)
    requires Path(s, labels, s')
    ensures Inv(s) ==> Inv(s') && Contains(Committed(s'), Committed(s))
  {
    if Inv(s) {
      PathKeepsCommitted(s, labels, s');
    }
  }
}
