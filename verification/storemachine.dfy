/**
 * The write-through store as a machine: one process that mirrors two maps in two durable
 * objects, creates records under a write lock, may crash at any point and reload.
 */
module StoreMachine {
  import opened Wrappers
  import opened Records

  /** The two durable objects; None while an object has never been written. */
  datatype Disk = Disk(producersFile: Option<seq<Producer>>, jobTypesFile: Option<seq<JobType>>)

  /** Who holds the write lock: a create has inserted its record; its save may have replaced the object. */
  datatype Lock =
    | Free
    | SavingProducer(p: Producer, written: bool)
    | SavingJobType(t: JobType, written: bool)

  datatype Process =
    | Down
    | Booting(producers: map<string, Producer>)
    | Up(mem: Registry, lock: Lock)

  datatype State = State(disk: Disk, process: Process)

  datatype Label =
    | Crash
    | ReadProducersObject
    | ReadJobTypesObject
    | BeginProducer(p: Producer, now: int)
    | BeginJobType(t: JobType, now: int)
    | RefuseProducer(p: Producer, now: int, error: Error)
    | RefuseJobType(t: JobType, now: int, error: Error)
    | WriteObject
    | SaveSucceeds
    | SaveFails
    | Get(id: string, found: Option<Producer>)
    | GetType(producerId: string, name: string, foundType: Option<JobType>)
    | List(all: seq<Producer>)
    | ListTypes(owner: string, types: seq<JobType>)

  function Listed<V>(file: Option<seq<V>>): seq<V> {
    match file case None => [] case Some(xs) => xs
  }

  /** What a process would have in memory if it loaded the two objects now. */
  function Durable(disk: Disk): Registry {
    Registry(Rebuild(Listed(disk.producersFile), ProducerKey), Rebuild(Listed(disk.jobTypesFile), TypeKey))
  }

  function Without<V>(m: map<string, V>, key: string): (r: map<string, V>)
    ensures key !in r && forall k :: k != key ==> (k in r <==> k in m) && (k in m ==> r[k] == m[k])
  {
    m - {key}
  }

  /** Memory as it will be if the create under way fails. */
  function RolledBack(mem: Registry, lock: Lock): Registry {
    match lock
    case Free => mem
    case SavingProducer(p, _) => mem.(producers := Without(mem.producers, p.id))
    case SavingJobType(t, _) => mem.(jobTypes := Without(mem.jobTypes, TypeKey(t)))
  }

  /** What the store stands for: memory without a create still under way, or the durable objects. */
  function Committed(s: State): Registry {
    match s.process
    case Up(mem, lock) => RolledBack(mem, lock)
    case _ => Durable(s.disk)
  }

  /** The records being saved replace the whole object, in whatever order the map was walked. */
  ghost predicate Replaces(disk: Disk, mem: Registry, lock: Lock, disk': Disk) {
    match lock
    case Free => false
    case SavingProducer(_, _) =>
      && disk'.jobTypesFile == disk.jobTypesFile
      && disk'.producersFile.Some? && Lists(disk'.producersFile.value, mem.producers, ProducerKey)
    case SavingJobType(_, _) =>
      && disk'.producersFile == disk.producersFile
      && disk'.jobTypesFile.Some? && Lists(disk'.jobTypesFile.value, mem.jobTypes, TypeKey)
  }

  function Written(lock: Lock): Lock {
    match lock
    case Free => Free
    case SavingProducer(p, _) => SavingProducer(p, true)
    case SavingJobType(t, _) => SavingJobType(t, true)
  }

  ghost predicate Step(s: State, l: Label, s': State) {
    match l
    case Crash =>
      s' == s.(process := Down)
    case ReadProducersObject =>
      s.process.Down? && s' == s.(process := Booting(Durable(s.disk).producers))
    case ReadJobTypesObject =>
      && s.process.Booting?
      && s' == s.(process := Up(Registry(s.process.producers, Durable(s.disk).jobTypes), Free))
    case BeginProducer(p, now) =>
      && s.process.Up? && s.process.lock.Free? && p.id !in s.process.mem.producers
      && var stamped := StampProducer(p, now);
         s' == s.(process := Up(s.process.mem.(producers := s.process.mem.producers[p.id := stamped]),
                                SavingProducer(stamped, false)))
    case BeginJobType(t, now) =>
      && s.process.Up? && s.process.lock.Free?
      && t.producerId in s.process.mem.producers && TypeKey(t) !in s.process.mem.jobTypes
      && var stamped := StampJobType(t, now);
         s' == s.(process := Up(s.process.mem.(jobTypes := s.process.mem.jobTypes[TypeKey(t) := stamped]),
                                SavingJobType(stamped, false)))
    case RefuseProducer(p, now, error) =>
      && s.process.Up? && s.process.lock.Free? && s' == s
      && p.id in s.process.mem.producers && error == AlreadyExists
    case RefuseJobType(t, now, error) =>
      && s.process.Up? && s.process.lock.Free? && s' == s
      && if t.producerId !in s.process.mem.producers then error == NotFound
         else TypeKey(t) in s.process.mem.jobTypes && error == AlreadyExists
    case WriteObject =>
      && s.process.Up? && !s.process.lock.Free? && !s.process.lock.written
      && Replaces(s.disk, s.process.mem, s.process.lock, s'.disk)
      && s'.process == s.process.(lock := Written(s.process.lock))
    case SaveSucceeds =>
      && s.process.Up? && !s.process.lock.Free? && s.process.lock.written
      && s' == s.(process := Up(s.process.mem, Free))
    case SaveFails =>
      && s.process.Up? && !s.process.lock.Free?
      && s' == s.(process := Up(RolledBack(s.process.mem, s.process.lock), Free))
    case Get(id, found) =>
      s.process.Up? && s.process.lock.Free? && s' == s && found == GetProducer(s.process.mem, id)
    case GetType(producerId, name, found) =>
      s.process.Up? && s.process.lock.Free? && s' == s && found == GetJobType(s.process.mem, producerId, name)
    case List(all) =>
      s.process.Up? && s.process.lock.Free? && s' == s && Lists(all, s.process.mem.producers, ProducerKey)
    case ListTypes(owner, types) =>
      s.process.Up? && s.process.lock.Free? && s' == s && ListsTypesOf(types, s.process.mem, owner)
  }

  // ---------- the invariant ----------

  /** The producers that job types may refer to are all in the given map. */
  ghost predicate OwnersIn(types: map<string, JobType>, producers: map<string, Producer>) {
    forall k :: k in types ==> types[k].producerId in producers
  }

  /** The record being saved is in memory under its key, and the object holds memory once written. */
  ghost predicate SaveInOrder(mem: Registry, lock: Lock, durable: Registry) {
    match lock
    case Free => true
    case SavingProducer(p, written) =>
      && p.id in mem.producers && mem.producers[p.id] == p
      && p.createdAt == p.updatedAt
      && (written ==> durable.producers == mem.producers)
    case SavingJobType(t, written) =>
      && TypeKey(t) in mem.jobTypes && mem.jobTypes[TypeKey(t)] == t
      && t.producerId in mem.producers
      && t.createdAt == t.updatedAt
      && (written ==> durable.jobTypes == mem.jobTypes)
  }

  ghost predicate Inv(s: State) {
    && Referential(Durable(s.disk))
    && match s.process
       case Down => true
       case Booting(producers) => producers == Durable(s.disk).producers
       case Up(mem, lock) =>
         var sure := RolledBack(mem, lock);
         && WellKeyed(mem)
         && Referential(sure)
         && Contains(Durable(s.disk), sure)
         && OwnersIn(Durable(s.disk).jobTypes, sure.producers)
         && SaveInOrder(mem, lock, Durable(s.disk))
  }

  lemma DurableWellKeyed(disk: Disk)
    ensures WellKeyed(Durable(disk))
  {
    RebuildKeyed(Listed(disk.producersFile), ProducerKey);
    RebuildKeyed(Listed(disk.jobTypesFile), TypeKey);
  }

  lemma WrittenObject(s: State, s': State)
    requires Inv(s) && Step(s, WriteObject, s')
    ensures s.process.lock.SavingProducer? ==>
              Durable(s'.disk) == Registry(s.process.mem.producers, Durable(s.disk).jobTypes)
    ensures s.process.lock.SavingJobType? ==>
              Durable(s'.disk) == Registry(Durable(s.disk).producers, s.process.mem.jobTypes)
  {
    if s.process.lock.SavingProducer? {
      RebuildListing(s'.disk.producersFile.value, s.process.mem.producers, ProducerKey);
    } else {
      RebuildListing(s'.disk.jobTypesFile.value, s.process.mem.jobTypes, TypeKey);
    }
  }

  lemma WriteKeepsCommitted(s: State, s': State)
    requires Inv(s) && Step(s, WriteObject, s')
    ensures Inv(s') && Committed(s') == Committed(s)
  {
    WrittenObject(s, s');
  }

  lemma EndOfSaveKeepsCommitted(s: State, l: Label, s': State)
    requires Inv(s) && Step(s, l, s') && (l.SaveSucceeds? || l.SaveFails?)
    ensures Inv(s') && Contains(Committed(s'), Committed(s))
  {
  }

  lemma BeginKeepsCommitted(s: State, l: Label, s': State)
    requires Inv(s) && Step(s, l, s') && (l.BeginProducer? || l.BeginJobType?)
    ensures Inv(s') && Committed(s') == Committed(s) == s.process.mem
  {
    assert RolledBack(s'.process.mem, s'.process.lock) == s.process.mem;
  }

  /**
   * The heart of the matter: no step, not even a crash, a failed save or an ambiguous one,
   * takes back or alters anything the store stands for.
   */
  lemma StepKeepsCommitted(s: State, l: Label, s': State)
    requires Inv(s) && Step(s, l, s')
    ensures Inv(s')
    ensures Contains(Committed(s'), Committed(s))
  {
    match l
    case WriteObject => WriteKeepsCommitted(s, s');
    case SaveSucceeds => EndOfSaveKeepsCommitted(s, l, s');
    case SaveFails => EndOfSaveKeepsCommitted(s, l, s');
    case BeginProducer(_, _) => BeginKeepsCommitted(s, l, s');
    case BeginJobType(_, _) => BeginKeepsCommitted(s, l, s');
    case _ => DurableWellKeyed(s.disk);
  }

  // ---------- the plain maps are refined ----------

  /** A create under way when the save ends, as the reference would perform it. */
  function ReferenceCreate(r: Registry, lock: Lock): (Option<Error>, Registry)
    requires !lock.Free?
  {
    match lock
    case SavingProducer(p, _) => CreateProducer(r, p, p.createdAt)
    case SavingJobType(t, _) => CreateJobType(r, t, t.createdAt)
  }

  /**
   * Seen through Committed the machine does what the plain maps do: a successful save is
   * their create, a refusal is their refusal with the same error, a failed save changes
   * nothing, reads agree, and reloading is invisible once the objects are what counts.
   */
  lemma StepRefinesReference(s: State, l: Label, s': State)
    requires Inv(s) && Step(s, l, s')
    ensures match l
            case SaveSucceeds => ReferenceCreate(Committed(s), s.process.lock) == (None, Committed(s'))
            case RefuseProducer(p, now, error) => CreateProducer(Committed(s), p, now) == (Some(error), Committed(s'))
            case RefuseJobType(t, now, error) => CreateJobType(Committed(s), t, now) == (Some(error), Committed(s'))
            case Get(id, found) => found == GetProducer(Committed(s), id) && Committed(s') == Committed(s)
            case GetType(producerId, name, found) =>
              found == GetJobType(Committed(s), producerId, name) && Committed(s') == Committed(s)
            case List(all) => Lists(all, Committed(s).producers, ProducerKey) && Committed(s') == Committed(s)
            case ListTypes(owner, types) => ListsTypesOf(types, Committed(s), owner) && Committed(s') == Committed(s)
            case Crash => Committed(s') == Durable(s.disk) && Contains(Committed(s'), Committed(s))
            case _ => Committed(s') == Committed(s)
  {
    StepKeepsCommitted(s, l, s');
    match l
    case WriteObject => WriteKeepsCommitted(s, s');
    case SaveSucceeds => SuccessIsReferenceCreate(s, s');
    case BeginProducer(_, _) => BeginKeepsCommitted(s, l, s');
    case BeginJobType(_, _) => BeginKeepsCommitted(s, l, s');
    case _ =>
  }

  lemma SuccessIsReferenceCreate(s: State, s': State)
    requires Inv(s) && Step(s, SaveSucceeds, s')
    ensures ReferenceCreate(Committed(s), s.process.lock) == (None, Committed(s'))
  {
    var mem, lock := s.process.mem, s.process.lock;
    match lock
    case SavingProducer(p, _) =>
      assert StampProducer(p, p.createdAt) == p;
      assert Without(mem.producers, p.id)[p.id := p] == mem.producers;
    case SavingJobType(t, _) =>
      assert StampJobType(t, t.createdAt) == t;
      assert Without(mem.jobTypes, TypeKey(t))[TypeKey(t) := t] == mem.jobTypes;
  }

  // ---------- whole runs ----------

  /** The service starts on a bucket that is empty or was left consistent. */
  ghost predicate Init(s: State) {
    s.process.Down? && Referential(Durable(s.disk))
  }

  ghost predicate IsRun(states: seq<State>, labels: seq<Label>) {
    && |states| == |labels| + 1
    && Init(states[0])
    && forall i :: 0 <= i < |labels| ==> Step(states[i], labels[i], states[i + 1])
  }

  lemma {:induction false} RunInvariant(states: seq<State>, labels: seq<Label>, i: nat)
    requires IsRun(states, labels) && i < |states|
    ensures Inv(states[i])
  {
    if i > 0 {
      RunInvariant(states, labels, i - 1);
      StepKeepsCommitted(states[i - 1], labels[i - 1], states[i]);
    }
  }

  /** At every point of every run the durable job types refer to durable producers only. */
  lemma DurableIsReferential(states: seq<State>, labels: seq<Label>, i: nat)
    requires IsRun(states, labels) && i < |states|
    ensures Referential(Durable(states[i].disk))
  {
    RunInvariant(states, labels, i);
  }

  /** What the store stands for only ever grows. */
  lemma {:induction false} CommittedGrows(states: seq<State>, labels: seq<Label>, i: nat, j: nat)
    requires IsRun(states, labels) && i <= j < |states|
    ensures Contains(Committed(states[j]), Committed(states[i]))
  {
    if i < j {
      CommittedGrows(states, labels, i, j - 1);
      RunInvariant(states, labels, j - 1);
      StepKeepsCommitted(states[j - 1], labels[j - 1], states[j]);
    }
  }

  lemma DurableHoldsCommitted(s: State)
    requires Inv(s)
    ensures Contains(Durable(s.disk), Committed(s))
  {
  }

  /** A producer whose create returned nil is in the durable object, unchanged, from then on. */
  lemma AcknowledgedProducerIsDurable(states: seq<State>, labels: seq<Label>, i: nat, j: nat)
    requires IsRun(states, labels) && i < j < |states|
    requires labels[i].SaveSucceeds? && states[i].process.Up? && states[i].process.lock.SavingProducer?
    ensures var p := states[i].process.lock.p;
            GetProducer(Durable(states[j].disk), p.id) == Some(p) && GetProducer(Committed(states[j]), p.id) == Some(p)
  {
    RunInvariant(states, labels, i);
    RunInvariant(states, labels, j);
    CommittedGrows(states, labels, i + 1, j);
    DurableHoldsCommitted(states[j]);
  }

  lemma AcknowledgedJobTypeIsDurable(states: seq<State>, labels: seq<Label>, i: nat, j: nat)
    requires IsRun(states, labels) && i < j < |states|
    requires labels[i].SaveSucceeds? && states[i].process.Up? && states[i].process.lock.SavingJobType?
    ensures var t := states[i].process.lock.t;
            && GetJobType(Durable(states[j].disk), t.producerId, t.name) == Some(t)
            && GetJobType(Committed(states[j]), t.producerId, t.name) == Some(t)
  {
    RunInvariant(states, labels, i);
    RunInvariant(states, labels, j);
    CommittedGrows(states, labels, i + 1, j);
    DurableHoldsCommitted(states[j]);
  }

  /** The record being saved is that of the latest create, stamped with the time at which it began. */
  lemma {:induction false} HeldRecordIsStamped(states: seq<State>, labels: seq<Label>, i: nat) returns (b: nat)
    requires IsRun(states, labels) && i < |states| && states[i].process.Up? && !states[i].process.lock.Free?
    ensures b < i && (labels[b].BeginProducer? || labels[b].BeginJobType?)
    ensures forall k :: b < k < i ==> labels[k].WriteObject?
    ensures match labels[b]
            case BeginProducer(p, now) =>
              && states[i].process.lock.SavingProducer?
              && states[i].process.lock.p == Producer(p.id, p.name, p.description, p.rateLimitRps, now, now)
            case BeginJobType(t, now) =>
              && states[i].process.lock.SavingJobType?
              && states[i].process.lock.t
                   == JobType(t.producerId, t.name, t.queue, t.maxRetries, t.description, now, now)
            case _ => false
  {
    assert i > 0;
    assert Step(states[i - 1], labels[i - 1], states[i]);
    if labels[i - 1].BeginProducer? || labels[i - 1].BeginJobType? {
      b := i - 1;
    } else {
      b := HeldRecordIsStamped(states, labels, i - 1);
    }
  }

  /** An acknowledged producer carries the fields it was created with, and that create's clock reading. */
  lemma AcknowledgedProducerIsStamped(states: seq<State>, labels: seq<Label>, i: nat, j: nat) returns (b: nat)
    requires IsRun(states, labels) && i < j < |states|
    requires labels[i].SaveSucceeds? && states[i].process.Up? && states[i].process.lock.SavingProducer?
    ensures b < i && labels[b].BeginProducer?
    ensures var p, now := labels[b].p, labels[b].now;
            && p.id in Durable(states[j].disk).producers
            && Durable(states[j].disk).producers[p.id]
                 == Producer(p.id, p.name, p.description, p.rateLimitRps, now, now)
  {
    b := HeldRecordIsStamped(states, labels, i);
    AcknowledgedProducerIsDurable(states, labels, i, j);
  }

  lemma AcknowledgedJobTypeIsStamped(states: seq<State>, labels: seq<Label>, i: nat, j: nat) returns (b: nat)
    requires IsRun(states, labels) && i < j < |states|
    requires labels[i].SaveSucceeds? && states[i].process.Up? && states[i].process.lock.SavingJobType?
    ensures b < i && labels[b].BeginJobType?
    ensures var t, now, key := labels[b].t, labels[b].now, labels[b].t.producerId + ":" + labels[b].t.name;
            && key in Durable(states[j].disk).jobTypes
            && Durable(states[j].disk).jobTypes[key]
                 == JobType(t.producerId, t.name, t.queue, t.maxRetries, t.description, now, now)
  {
    b := HeldRecordIsStamped(states, labels, i);
    AcknowledgedJobTypeIsDurable(states, labels, i, j);
  }

  /** Nothing that was ever read is taken back: every later read, after crashes too, finds the same. */
  lemma ReadsAreNeverTakenBack(states: seq<State>, labels: seq<Label>, i: nat, j: nat)
    requires IsRun(states, labels) && i <= j < |labels|
    ensures labels[i].Get? && labels[j].Get? && labels[i].id == labels[j].id && labels[i].found.Some? ==>
              labels[j].found == labels[i].found
    ensures labels[i].GetType? && labels[j].GetType? && labels[i].producerId == labels[j].producerId
            && labels[i].name == labels[j].name && labels[i].foundType.Some? ==>
              labels[j].foundType == labels[i].foundType
  {
    RunInvariant(states, labels, i);
    RunInvariant(states, labels, j);
    CommittedGrows(states, labels, i, j);
    assert Step(states[i], labels[i], states[i + 1]) && Step(states[j], labels[j], states[j + 1]);
  }

  /** What a listing returned is returned by every later listing, unchanged, and found by every later lookup. */
  lemma ListingsAreNeverTakenBack(states: seq<State>, labels: seq<Label>, i: nat, j: nat)
    requires IsRun(states, labels) && i <= j < |labels|
    ensures labels[i].List? ==> forall p :: p in labels[i].all ==>
              && (labels[j].List? ==> p in labels[j].all)
              && (labels[j].Get? && labels[j].id == p.id ==> labels[j].found == Some(p))
    ensures labels[i].ListTypes? ==> forall t :: t in labels[i].types ==>
              && (labels[j].ListTypes? && labels[j].owner == t.producerId ==> t in labels[j].types)
              && (labels[j].GetType? && labels[j].producerId == t.producerId && labels[j].name == t.name ==>
                    labels[j].foundType == Some(t))
  {
    RunInvariant(states, labels, i);
    RunInvariant(states, labels, j);
    CommittedGrows(states, labels, i, j);
    assert Step(states[i], labels[i], states[i + 1]) && Step(states[j], labels[j], states[j + 1]);
  }

  // ---------- what a failed create can leave behind ----------

  /** This step replaces the durable object of the job types, or of the producers. */
  predicate Writes(s: State, l: Label, types: bool) {
    l.WriteObject? && s.process.Up? && if types then s.process.lock.SavingJobType? else s.process.lock.SavingProducer?
  }

  function Keys(r: Registry, types: bool): set<string> {
    if types then r.jobTypes.Keys else r.producers.Keys
  }

  function SavedKey(lock: Lock): string
    requires !lock.Free?
  {
    match lock
    case SavingProducer(p, _) => p.id
    case SavingJobType(t, _) => TypeKey(t)
  }

  /** The last step before i that replaced the object, -1 if there was none. */
  function LastWrite(states: seq<State>, labels: seq<Label>, i: nat, types: bool): (j: int)
    requires |states| == |labels| + 1 && i <= |labels|
    ensures -1 <= j < i
    ensures j >= 0 ==> Writes(states[j], labels[j], types)
    ensures forall k :: j < k < i ==> !Writes(states[k], labels[k], types)
  {
    if i == 0 then -1
    else if Writes(states[i - 1], labels[i - 1], types) then i - 1
    else LastWrite(states, labels, i - 1, types)
  }

  lemma WriteDecides(states: seq<State>, labels: seq<Label>, i: nat, types: bool)
    requires IsRun(states, labels) && i < |labels|
    ensures Keys(Durable(states[i + 1].disk), types)
         == if Writes(states[i], labels[i], types) then Keys(states[i].process.mem, types)
            else Keys(Durable(states[i].disk), types)
  {
    RunInvariant(states, labels, i);
    assert Step(states[i], labels[i], states[i + 1]);
    if labels[i].WriteObject? {
      WrittenObject(states[i], states[i + 1]);
    }
  }

  /** The durable object holds what memory held when it was last replaced. */
  lemma {:induction false} LastWriteDecides(states: seq<State>, labels: seq<Label>, i: nat, types: bool)
    requires IsRun(states, labels) && i < |states|
    ensures var j := LastWrite(states, labels, i, types);
            Keys(Durable(states[i].disk), types)
              == if j < 0 then Keys(Durable(states[0].disk), types) else Keys(states[j].process.mem, types)
  {
    if i > 0 {
      LastWriteDecides(states, labels, i - 1, types);
      WriteDecides(states, labels, i - 1, types);
    }
  }

  /**
   * The durable objects hold more than the store stands for by at most one record each: the
   * one that the last replacement of the object was saving.
   */
  lemma OnlyLastWriteIsAhead(states: seq<State>, labels: seq<Label>, i: nat, types: bool)
    requires IsRun(states, labels) && i < |states|
    ensures var j := LastWrite(states, labels, i, types);
            Keys(Durable(states[i].disk), types) - Keys(Committed(states[i]), types)
              == if j >= 0 then {SavedKey(states[j].process.lock)} - Keys(Committed(states[i]), types) else {}
  {
    LastWriteDecides(states, labels, i, types);
    var j := LastWrite(states, labels, i, types);
    if j < 0 {
      CommittedGrows(states, labels, 0, i);
    } else {
      RunInvariant(states, labels, j);
      CommittedGrows(states, labels, j, i);
    }
  }

  /** A producer whose create reported failure can be found after a crash: a run in which it is. */
  lemma FailedCreateMayReappear(p: Producer, now: int) returns (states: seq<State>, labels: seq<Label>)
    ensures IsRun(states, labels) && |labels| == 9
    ensures labels[2] == BeginProducer(p, now) && labels[4].SaveFails?
    ensures labels[8] == Get(p.id, Some(StampProducer(p, now)))
  {
    var stamped := StampProducer(p, now);
    var mem, empty := Registry(map[p.id := stamped], map[]), Disk(None, None);
    var disk := Disk(Some([stamped]), None);
    assert Durable(empty) == Records.EMPTY;
    assert [stamped][..0] == [] && Durable(disk) == mem;
    states := [State(empty, Down), State(empty, Booting(map[])), State(empty, Up(Records.EMPTY, Free)),
               State(empty, Up(mem, SavingProducer(stamped, false))),
               State(disk, Up(mem, SavingProducer(stamped, true))),
               State(disk, Up(Records.EMPTY, Free)), State(disk, Down), State(disk, Booting(mem.producers)),
               State(disk, Up(mem, Free)), State(disk, Up(mem, Free))];
    labels := [ReadProducersObject, ReadJobTypesObject, BeginProducer(p, now), WriteObject, SaveFails,
               Crash, ReadProducersObject, ReadJobTypesObject, Get(p.id, Some(stamped))];
  }

  /** A create that fails without a crash leaves memory exactly as it found it. */
  lemma {:induction false} FailedCreateRestoresMemory(states: seq<State>, labels: seq<Label>, i: nat, j: nat)
    requires IsRun(states, labels) && i < j < |labels|
    requires labels[i].BeginProducer? || labels[i].BeginJobType?
    requires labels[j].SaveFails?
    requires forall k :: i < k < j ==> !labels[k].Crash? && !labels[k].SaveSucceeds? && !labels[k].SaveFails?
    ensures states[j + 1].process == states[i].process
  {
    HeldLockOnlyWrites(states, labels, i, j);
    assert Step(states[j], labels[j], states[j + 1]);
  }

  lemma {:induction false} HeldLockOnlyWrites(states: seq<State>, labels: seq<Label>, i: nat, j: nat)
    requires IsRun(states, labels) && i < j < |labels|
    requires labels[i].BeginProducer? || labels[i].BeginJobType?
    requires forall k :: i < k < j ==> !labels[k].Crash? && !labels[k].SaveSucceeds? && !labels[k].SaveFails?
    ensures states[j].process.Up? && !states[j].process.lock.Free?
    ensures states[i].process == Up(Committed(states[j]), Free)
  {
    assert Step(states[j - 1], labels[j - 1], states[j]);
    RunInvariant(states, labels, j - 1);
    if i + 1 == j {
      BeginKeepsCommitted(states[i], labels[i], states[j]);
    } else {
      HeldLockOnlyWrites(states, labels, i, j - 1);
      WriteKeepsCommitted(states[j - 1], states[j]);
    }
  }

  // ---------- nothing is invented ----------

  ghost predicate KnownProducer(p: Producer, origin: Registry, labels: seq<Label>) {
    || (p.id in origin.producers && origin.producers[p.id] == p)
    || (exists i :: 0 <= i < |labels| && labels[i].BeginProducer? && StampProducer(labels[i].p, labels[i].now) == p)
  }

  ghost predicate KnownJobType(t: JobType, origin: Registry, labels: seq<Label>) {
    || (TypeKey(t) in origin.jobTypes && origin.jobTypes[TypeKey(t)] == t)
    || (exists i :: 0 <= i < |labels| && labels[i].BeginJobType? && StampJobType(labels[i].t, labels[i].now) == t)
  }

  ghost predicate Sourced(r: Registry, origin: Registry, labels: seq<Label>) {
    && (forall k :: k in r.producers ==> KnownProducer(r.producers[k], origin, labels))
    && (forall k :: k in r.jobTypes ==> KnownJobType(r.jobTypes[k], origin, labels))
  }

  ghost predicate AllSourced(s: State, origin: Registry, labels: seq<Label>) {
    && Sourced(Durable(s.disk), origin, labels)
    && (s.process.Up? ==> Sourced(s.process.mem, origin, labels))
  }

  lemma SourcedLater(r: Registry, origin: Registry, labels: seq<Label>, l: Label)
    requires Sourced(r, origin, labels)
    ensures Sourced(r, origin, labels + [l])
  {
    forall k | k in r.producers
      ensures KnownProducer(r.producers[k], origin, labels + [l])
    {
      KnownProducerLater(r.producers[k], origin, labels, l);
    }
    forall k | k in r.jobTypes
      ensures KnownJobType(r.jobTypes[k], origin, labels + [l])
    {
      KnownJobTypeLater(r.jobTypes[k], origin, labels, l);
    }
  }

  lemma KnownProducerLater(p: Producer, origin: Registry, labels: seq<Label>, l: Label)
    requires KnownProducer(p, origin, labels) || (l.BeginProducer? && StampProducer(l.p, l.now) == p)
    ensures KnownProducer(p, origin, labels + [l])
  {
    if i :| 0 <= i < |labels| && labels[i].BeginProducer? && StampProducer(labels[i].p, labels[i].now) == p {
      assert (labels + [l])[i] == labels[i];
    } else {
      assert (labels + [l])[|labels|] == l;
    }
  }

  lemma KnownJobTypeLater(t: JobType, origin: Registry, labels: seq<Label>, l: Label)
    requires KnownJobType(t, origin, labels) || (l.BeginJobType? && StampJobType(l.t, l.now) == t)
    ensures KnownJobType(t, origin, labels + [l])
  {
    if i :| 0 <= i < |labels| && labels[i].BeginJobType? && StampJobType(labels[i].t, labels[i].now) == t {
      assert (labels + [l])[i] == labels[i];
    } else {
      assert (labels + [l])[|labels|] == l;
    }
  }

  lemma StepKeepsSources(s: State, l: Label, s': State, origin: Registry, labels: seq<Label>)
    requires Inv(s) && Step(s, l, s') && AllSourced(s, origin, labels)
    ensures AllSourced(s', origin, labels + [l])
  {
    SourcedLater(Durable(s.disk), origin, labels, l);
    if s.process.Up? {
      SourcedLater(s.process.mem, origin, labels, l);
    }
    match l
    case WriteObject => WrittenObject(s, s');
    case BeginProducer(p, now) => KnownProducerLater(StampProducer(p, now), origin, labels, l);
    case BeginJobType(t, now) => KnownJobTypeLater(StampJobType(t, now), origin, labels, l);
    case _ =>
  }

  /** Every record, durable or in memory, was there at the start or was handed to a create of this run. */
  lemma {:induction false} NothingIsInvented(states: seq<State>, labels: seq<Label>, i: nat)
    requires IsRun(states, labels) && i < |states|
    ensures AllSourced(states[i], Durable(states[0].disk), labels[..i])
  {
    if i == 0 {
      DurableWellKeyed(states[0].disk);
    } else {
      NothingIsInvented(states, labels, i - 1);
      RunInvariant(states, labels, i - 1);
      StepKeepsSources(states[i - 1], labels[i - 1], states[i], Durable(states[0].disk), labels[..i - 1]);
      assert labels[..i] == labels[..i - 1] + [labels[i - 1]];
    }
  }

  // ---------- calls as paths of the machine ----------

  /** The given steps, in this order, can lead from s to s'. */
  ghost predicate Path(s: State, labels: seq<Label>, s': State)
    decreases |labels|
  {
    if labels == [] then s == s'
    else exists m :: Step(s, labels[0], m) && Path(m, labels[1..], s')
  }

  lemma {:induction false} PathKeepsCommitted(s: State, labels: seq<Label>, s': State)
    requires Inv(s) && Path(s, labels, s')
    ensures Inv(s') && Contains(Committed(s'), Committed(s))
    decreases |labels|
  {
    if labels != [] {
      var m :| Step(s, labels[0], m) && Path(m, labels[1..], s');
      StepKeepsCommitted(s, labels[0], m);
      PathKeepsCommitted(m, labels[1..], s');
    }
  }
}
