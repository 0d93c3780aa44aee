/** Producers and job types as values, and what the in-memory store does with them. */
module Records {
  import opened Wrappers

  datatype Producer = Producer(id: string, name: string, description: string, rateLimitRps: int,
                               createdAt: int, updatedAt: int)

  datatype JobType = JobType(producerId: string, name: string, queue: int, maxRetries: int, description: string,
                             createdAt: int, updatedAt: int)

  datatype Error = NotFound | AlreadyExists | StorageFailure

  datatype Registry = Registry(producers: map<string, Producer>, jobTypes: map<string, JobType>)

  const EMPTY := Registry(map[], map[])

  function JobTypeKey(producerId: string, name: string): string {
    producerId + ":" + name
  }

  function ProducerKey(p: Producer): string { p.id }

  function TypeKey(t: JobType): string { JobTypeKey(t.producerId, t.name) }

  function StampProducer(p: Producer, now: int): Producer {
    p.(createdAt := now, updatedAt := now)
  }

  function StampJobType(t: JobType, now: int): JobType {
    t.(createdAt := now, updatedAt := now)
  }

  // ---------- the reference: plain maps ----------

  function CreateProducer(r: Registry, p: Producer, now: int): (Option<Error>, Registry) {
    if p.id in r.producers then (Some(AlreadyExists), r)
    else (None, r.(producers := r.producers[p.id := StampProducer(p, now)]))
  }

  function CreateJobType(r: Registry, t: JobType, now: int): (Option<Error>, Registry) {
    if t.producerId !in r.producers then (Some(NotFound), r)
    else if TypeKey(t) in r.jobTypes then (Some(AlreadyExists), r)
    else (None, r.(jobTypes := r.jobTypes[TypeKey(t) := StampJobType(t, now)]))
  }

  function GetProducer(r: Registry, id: string): Option<Producer> {
    if id in r.producers then Some(r.producers[id]) else None
  }

  function GetJobType(r: Registry, producerId: string, name: string): Option<JobType> {
    var key := JobTypeKey(producerId, name);
    if key in r.jobTypes then Some(r.jobTypes[key]) else None
  }

  /** Every record sits under the key its own fields spell. */
  ghost predicate WellKeyed(r: Registry) {
    && (forall k :: k in r.producers ==> ProducerKey(r.producers[k]) == k)
    && (forall k :: k in r.jobTypes ==> TypeKey(r.jobTypes[k]) == k)
  }

  /** Every job type belongs to a registered producer. */
  ghost predicate Referential(r: Registry) {
    forall k :: k in r.jobTypes ==> r.jobTypes[k].producerId in r.producers
  }

  ghost predicate SubMap<K, V>(a: map<K, V>, b: map<K, V>) {
    forall k :: k in a ==> k in b && b[k] == a[k]
  }

  /** Everything registered in a is registered, unchanged, in b. */
  ghost predicate Contains(b: Registry, a: Registry) {
    SubMap(a.producers, b.producers) && SubMap(a.jobTypes, b.jobTypes)
  }

  // ---------- files: a map written as a list and read back ----------

  /** xs lists the values of m, each once, in some order. */
  ghost predicate Lists<V>(xs: seq<V>, m: map<string, V>, key: V -> string) {
    && (forall i :: 0 <= i < |xs| ==> key(xs[i]) in m && m[key(xs[i])] == xs[i])
    && (forall i, j :: 0 <= i < j < |xs| ==> xs[i] != xs[j])
    && (forall k :: k in m ==> m[k] in xs)
  }

  /** The map a file's list is loaded into; a later entry for the same key wins. */
  function Rebuild<V>(xs: seq<V>, key: V -> string): map<string, V> {
    if xs == [] then map[] else
      var last := xs[|xs| - 1];
      Rebuild(xs[..|xs| - 1], key)[key(last) := last]
  }

  /** A loaded map holds only listed values, each under its own key. */
  lemma {:induction false} RebuildKeyed<V>(xs: seq<V>, key: V -> string)
    ensures forall k :: k in Rebuild(xs, key) ==> Rebuild(xs, key)[k] in xs && key(Rebuild(xs, key)[k]) == k
    ensures forall x :: x in xs ==> key(x) in Rebuild(xs, key)
  {
    if xs != [] {
      var init, last := xs[..|xs| - 1], xs[|xs| - 1];
      RebuildKeyed(init, key);
      assert xs == init + [last];
    }
  }

  /** Saving a well-keyed map in any order and loading the file gives the map back. */
  lemma RebuildListing<V>(xs: seq<V>, m: map<string, V>, key: V -> string)
    requires Lists(xs, m, key)
    requires forall k :: k in m ==> key(m[k]) == k
    ensures Rebuild(xs, key) == m
  {
    RebuildKeyed(xs, key);
    var r := Rebuild(xs, key);
    forall k | k in r
      ensures k in m && m[k] == r[k]
    {
      var i :| 0 <= i < |xs| && xs[i] == r[k];
      assert key(xs[i]) in m && m[key(xs[i])] == xs[i];
    }
    forall k | k in m
      ensures k in r
    {
      assert m[k] in xs;
    }
  }

  // ---------- the flattened key ----------

  /** No identifier followed by a colon is the beginning of another one. */
  ghost predicate Separable(ids: set<string>) {
    forall p, q :: p in ids && q in ids ==> !(p + ":" <= q)
  }

  lemma KeyCollision(p: string, m: string, q: string, n: string)
    requires JobTypeKey(p, m) == JobTypeKey(q, n)
    ensures (p == q && m == n) || p + ":" <= q || q + ":" <= p
  {
    var key := JobTypeKey(p, m);
    assert p == key[..|p|] && q == key[..|q|];
    assert key[|p|] == ':' && key[|q|] == ':';
    if |p| == |q| {
      assert m == key[|p| + 1..] == n;
    } else if |p| < |q| {
      assert (p + ":") == key[..|p| + 1] <= key[..|q|];
    } else {
      assert (q + ":") == key[..|q| + 1] <= key[..|p|];
    }
  }

  /** If one identifier with a colon begins another, some pair of names gives them the same key. */
  lemma KeyClash(p: string, q: string, n: string)
    requires p + ":" <= q
    ensures JobTypeKey(p, q[|p| + 1..] + ":" + n) == JobTypeKey(q, n)
  {
  }

  /** Keys identify the producer and the name exactly when the producer identifiers are separable. */
  lemma KeysInjectiveIff(ids: set<string>)
    ensures (forall p, m, q, n ::
               p in ids && q in ids && JobTypeKey(p, m) == JobTypeKey(q, n) ==> p == q && m == n)
       <==> Separable(ids)
  {
    if Separable(ids) {
      forall p, m, q, n | p in ids && q in ids && JobTypeKey(p, m) == JobTypeKey(q, n)
        ensures p == q && m == n
      {
        KeyCollision(p, m, q, n);
      }
    } else {
      var p, q :| p in ids && q in ids && p + ":" <= q;
      KeyClash(p, q, "");
      assert p != q;
    }
  }

  lemma PrefixHasColon(p: string, q: string)
    ensures p + ":" <= q ==> ':' in q
  {
    if p + ":" <= q {
      assert q[|p|] == ':';
    }
  }

  lemma ColonFreeIsSeparable(ids: set<string>)
    requires forall p :: p in ids ==> ':' !in p
    ensures Separable(ids)
  {
    forall p, q | p in ids && q in ids
      ensures !(p + ":" <= q)
    {
      PrefixHasColon(p, q);
    }
  }

  function HexDigit(d: nat): char
    requires d < 16
  {
    if d < 10 then '0' + d as char else 'a' + (d - 10) as char
  }

  function Hex(bs: seq<byte>): string {
    if bs == [] then "" else [HexDigit(bs[0] / 16), HexDigit(bs[0] % 16)] + Hex(bs[1..])
  }

  /** The identifier the admin service gives a new producer. */
  function ServerProducerId(random: seq<byte>): string {
    "prod_" + Hex(random)
  }

  lemma {:induction false} HexHasNoColon(bs: seq<byte>)
    ensures ':' !in Hex(bs)
  {
    if bs != [] {
      HexHasNoColon(bs[1..]);
    }
  }

  /** The identifier is "prod_" and two lower-case hexadecimal digits for each byte. */
  lemma {:induction false} HexSpells(bs: seq<byte>, i: nat)
    requires i < |bs|
    ensures |Hex(bs)| == 2 * |bs|
    ensures Hex(bs)[2 * i] == "0123456789abcdef"[bs[i] / 16] && Hex(bs)[2 * i + 1] == "0123456789abcdef"[bs[i] % 16]
  {
    HexDigitSpells(bs[0] / 16);
    HexDigitSpells(bs[0] % 16);
    if |bs| > 1 {
      HexSpells(bs[1..], if i == 0 then 0 else i - 1);
    }
  }

  lemma HexDigitSpells(d: nat)
    requires d < 16
    ensures HexDigit(d) == "0123456789abcdef"[d]
  {
  }

  lemma ServerIdsAreSeparable(ids: set<string>)
    requires forall p :: p in ids ==> exists bs: seq<byte> :: p == ServerProducerId(bs)
    ensures Separable(ids)
  {
    forall p | p in ids
      ensures ':' !in p
    {
      var bs: seq<byte> :| p == ServerProducerId(bs);
      HexHasNoColon(bs);
    }
    ColonFreeIsSeparable(ids);
  }

  /** The job type that was registered for a producer and a name, if any. */
  ghost predicate Registered(r: Registry, producerId: string, name: string, t: JobType) {
    exists k :: k in r.jobTypes && r.jobTypes[k] == t && t.producerId == producerId && t.name == name
  }

  /** No other producer's job type sits under a key that begins like this producer's keys. */
  ghost predicate Unshadowed(r: Registry, producerId: string) {
    forall k :: k in r.jobTypes && r.jobTypes[k].producerId != producerId ==> !(producerId + ":" <= k)
  }

  /** A job type that was registered is always found under its producer and name. */
  lemma RegisteredIsFound(r: Registry, producerId: string, name: string, t: JobType)
    requires WellKeyed(r) && Registered(r, producerId, name, t)
    ensures GetJobType(r, producerId, name) == Some(t)
  {
  }

  /** What a lookup finds was registered for that very pair, exactly if nothing shadows the producer. */
  lemma LookupExactIff(r: Registry, producerId: string)
    requires WellKeyed(r)
    ensures (forall name, t :: GetJobType(r, producerId, name) == Some(t) ==> Registered(r, producerId, name, t))
       <==> Unshadowed(r, producerId)
  {
    if Unshadowed(r, producerId) {
      forall name, t | GetJobType(r, producerId, name) == Some(t)
        ensures Registered(r, producerId, name, t)
      {
        var key := JobTypeKey(producerId, name);
        assert producerId + ":" <= key;
        assert t.producerId == producerId;
        KeyCollision(producerId, name, t.producerId, t.name);
        assert name == key[|producerId| + 1..] == t.name;
      }
    } else {
      var k :| k in r.jobTypes && r.jobTypes[k].producerId != producerId && producerId + ":" <= k;
      var name := k[|producerId| + 1..];
      assert JobTypeKey(producerId, name) == k;
      assert GetJobType(r, producerId, name) == Some(r.jobTypes[k]);
    }
  }

  /** A key that begins like another producer's keys betrays that one identifier begins the other. */
  lemma ShadowingKey(producerId: string, t: JobType)
    ensures producerId + ":" <= TypeKey(t) && producerId != t.producerId ==>
              producerId + ":" <= t.producerId || t.producerId + ":" <= producerId
  {
    var key := TypeKey(t);
    if producerId + ":" <= key {
      var name := key[|producerId| + 1..];
      assert JobTypeKey(producerId, name) == key;
      KeyCollision(producerId, name, t.producerId, t.name);
    }
  }

  /** Separable identifiers, the looked-up one included, leave nothing shadowed. */
  lemma SeparableIsUnshadowed(r: Registry, producerId: string)
    requires WellKeyed(r) && Referential(r) && Separable(r.producers.Keys + {producerId})
    ensures Unshadowed(r, producerId)
  {
    forall k | k in r.jobTypes && r.jobTypes[k].producerId != producerId
      ensures !(producerId + ":" <= k)
    {
      ShadowingKey(producerId, r.jobTypes[k]);
    }
  }

  /** xs is what listing the job types of a producer may return. */
  ghost predicate ListsTypesOf(xs: seq<JobType>, r: Registry, producerId: string) {
    && (forall i, j :: 0 <= i < j < |xs| ==> xs[i] != xs[j])
    && (forall t :: t in xs <==> exists k :: k in r.jobTypes && r.jobTypes[k] == t && t.producerId == producerId)
  }

  /** Listing a producer that nothing shadows gives exactly the job types lookups can reach. */
  lemma ListingMatchesLookup(r: Registry, producerId: string, xs: seq<JobType>, t: JobType)
    requires WellKeyed(r) && Unshadowed(r, producerId) && ListsTypesOf(xs, r, producerId)
    ensures t in xs <==> exists name :: GetJobType(r, producerId, name) == Some(t)
  {
    if t in xs {
      assert GetJobType(r, producerId, t.name) == Some(t);
    }
    if name :| GetJobType(r, producerId, name) == Some(t) {
      LookupExactIff(r, producerId);
      assert Registered(r, producerId, name, t);
    }
  }
}
