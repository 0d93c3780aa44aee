/** Job identifiers: a 21-byte record with a checksum, as "pjob_" and base-62 text. */
module JobId {
  import opened Wrappers
  import opened Radix
  import opened Base62

  const PREFIX: string := "pjob_"
  const VERSION: byte := 1
  const HEADER_SIZE: nat := 19
  const PAYLOAD_SIZE: nat := 21

  /** 2 to the power 48: the timestamp field holds this many milliseconds. */
  const TIMESTAMPS: nat := 0x1_0000_0000_0000

  /** The millisecond, in the year 8190, within which identifiers grow from 27 digits to 28. */
  const ROLLOVER: nat := 196291971510673

  type Digest = h: seq<byte> | |h| == 32 witness seq(32, _ => 0)

  /** Library functions the identifiers depend on, of which only the types matter here. */
  datatype Primitives = Primitives(sha256: string -> Digest, crc32: seq<byte> -> nat)

  datatype Record = Record(millis: nat, appHash: seq<byte>, typeHash: seq<byte>, random: seq<byte>) {
    predicate Valid() {
      millis < TIMESTAMPS && |appHash| == 4 && |typeHash| == 4 && |random| == 4
    }
  }

  /** What an identifier generated at time now (in milliseconds, any sign) records. */
  function RecordOf(prims: Primitives, now: int, appId: string, jobType: string, random: seq<byte>): (rec: Record)
    requires |random| == 4
    ensures rec.Valid()
  {
    Record(now % TIMESTAMPS, prims.sha256(appId)[..4], prims.sha256(jobType)[..4], random)
  }

  function Timestamp(rec: Record): (bs: seq<byte>)
    requires rec.Valid()
    ensures |bs| == 6
  {
    AsBytes(FixedDigits(rec.millis, 6, 256))
  }

  function Header(rec: Record): (bs: seq<byte>)
    requires rec.Valid()
    ensures |bs| == HEADER_SIZE
  {
    [VERSION] + Timestamp(rec) + rec.appHash + rec.typeHash + rec.random
  }

  /** The low 16 bits of the CRC-32, high byte first. */
  function Checksum(prims: Primitives, header: seq<byte>): (bs: seq<byte>)
    ensures |bs| == 2
  {
    AsBytes(FixedDigits(prims.crc32(header) % 0x1_0000, 2, 256))
  }

  function Payload(prims: Primitives, rec: Record): (bs: seq<byte>)
    requires rec.Valid()
    ensures |bs| == PAYLOAD_SIZE
  {
    Header(rec) + Checksum(prims, Header(rec))
  }

  function IdOf(prims: Primitives, rec: Record): string
    requires rec.Valid()
  {
    PREFIX + Encode(Payload(prims, rec))
  }

  /** Reads an identifier back; None if it is not one this generator can have made. */
  function DecodeId(prims: Primitives, id: string): Option<Record> {
    if !(PREFIX <= id) then None else
      match Decode(id[|PREFIX|..])
      case None => None
      case Some(bs) =>
        if |bs| == PAYLOAD_SIZE && bs[0] == VERSION && bs[HEADER_SIZE..] == Checksum(prims, bs[..HEADER_SIZE]) then
          Some(Record(Value(bs[1..7], 256), bs[7..11], bs[11..15], bs[15..19]))
        else
          None
  }

  // ---------- the generator ----------

  lemma TimestampWidth()
    ensures Pow(256, 6) == TIMESTAMPS
  {
  }

  lemma TimestampValue(rec: Record)
    requires rec.Valid()
    ensures Value(Timestamp(rec), 256) == rec.millis
  {
    TimestampWidth();
    FixedDigitsExact(rec.millis, 6, 256);
  }

  lemma TimestampUnique(rec: Record, bs: seq<byte>)
    requires |bs| == 6 && rec.millis == Value(bs, 256)
    ensures rec.millis < TIMESTAMPS
    ensures rec.Valid() ==> Timestamp(rec) == bs
  {
    TimestampWidth();
    FixedDigitsUnique(bs, 256);
  }

  /** The bytes the generator shifts out of the clock are those of the recorded timestamp. */
  lemma ShiftedBytes(now: int, rec: Record)
    requires rec.Valid() && rec.millis == now % TIMESTAMPS
    ensures Timestamp(rec)
         == [ToByte(now / 0x100_0000_0000), ToByte(now / 0x1_0000_0000), ToByte(now / 0x100_0000),
             ToByte(now / 0x1_0000), ToByte(now / 0x100), ToByte(now)]
  {
    TimestampWidth();
    FixedDigitsOfMod(now, 6, 256);
    ShiftedByte(now, 5, 0x100_0000_0000);
    ShiftedByte(now, 4, 0x1_0000_0000);
    ShiftedByte(now, 3, 0x100_0000);
    ShiftedByte(now, 2, 0x1_0000);
    ShiftedByte(now, 1, 0x100);
    ShiftedByte(now, 0, 1);
  }

  lemma ShiftedByte(now: int, k: nat, shift: nat)
    requires k < 6 && shift == Pow(256, k) && shift >= 1
    ensures FixedDigits(now, 6, 256)[5 - k] == ToByte(now / shift)
  {
    FixedDigitsAt(now, 6, k, 256);
  }

  lemma ChecksumBytes(prims: Primitives, header: seq<byte>)
    ensures var crc := prims.crc32(header) % 0x1_0000;
            Checksum(prims, header) == [ToByte(crc / 0x100), ToByte(crc)]
  {
    var crc := prims.crc32(header) % 0x1_0000;
    assert FixedDigits(crc, 2, 256) == FixedDigits(crc / 256, 1, 256) + [crc % 256];
    assert FixedDigits(crc / 256, 1, 256) == FixedDigits(crc / 256 / 256, 0, 256) + [crc / 256 % 256];
  }

  /** Copies bytes into a slice of a buffer. */
  method CopyInto(buf: array<byte>, at: nat, bytes: seq<byte>)
    requires at + |bytes| <= buf.Length
    modifies buf
    ensures buf[..] == old(buf[..at]) + bytes + old(buf[at + |bytes|..])
  {
    for k := 0 to |bytes|
      invariant buf[..at] == old(buf[..at])
      invariant buf[at..at + k] == bytes[..k]
      invariant buf[at + k..] == old(buf[at + k..])
    {
      buf[at + k] := bytes[k];
    }
  }

  /** Fills in everything that comes before the checksum. */
  method WriteHeader(payload: array<byte>, prims: Primitives, now: int, appId: string, jobType: string,
                     random: seq<byte>)
    requires payload.Length == PAYLOAD_SIZE && |random| == 4
    modifies payload
    ensures payload[..HEADER_SIZE] == Header(RecordOf(prims, now, appId, jobType, random))
  {
    ghost var rec := RecordOf(prims, now, appId, jobType, random);
    payload[0] := VERSION;
    payload[1] := ToByte(now / 0x100_0000_0000);
    payload[2] := ToByte(now / 0x1_0000_0000);
    payload[3] := ToByte(now / 0x100_0000);
    payload[4] := ToByte(now / 0x1_0000);
    payload[5] := ToByte(now / 0x100);
    payload[6] := ToByte(now);
    ShiftedBytes(now, rec);
    assert payload[..7] == [VERSION] + Timestamp(rec);

    var appHash := prims.sha256(appId);
    CopyInto(payload, 7, appHash[..4]);
    assert payload[..11] == [VERSION] + Timestamp(rec) + rec.appHash;
    var jobHash := prims.sha256(jobType);
    CopyInto(payload, 11, jobHash[..4]);
    assert payload[..15] == [VERSION] + Timestamp(rec) + rec.appHash + rec.typeHash;
    CopyInto(payload, 15, random);
  }

  /** What stands where in the 21 bytes of an identifier. */
  predicate Spells(prims: Primitives, bs: seq<byte>, now: int, appId: string, jobType: string, random: seq<byte>)
    requires |bs| == 21
  {
    && bs[0] == 1
    && Value(bs[1..7], 256) == now % 0x1_0000_0000_0000
    && bs[7..11] == prims.sha256(appId)[..4]
    && bs[11..15] == prims.sha256(jobType)[..4]
    && bs[15..19] == random
    && (bs[19] as int) * 256 + bs[20] == prims.crc32(bs[..19]) % 65536
  }

  predicate Identifies(prims: Primitives, id: string, now: int, appId: string, jobType: string, random: seq<byte>) {
    && "pjob_" <= id
    && Decode(id[5..]).Some? && |Decode(id[5..]).value| == 21
    && Spells(prims, Decode(id[5..]).value, now, appId, jobType, random)
  }

  lemma PayloadSpells(prims: Primitives, now: int, appId: string, jobType: string, random: seq<byte>)
    requires |random| == 4
    ensures Spells(prims, Payload(prims, RecordOf(prims, now, appId, jobType, random)), now, appId, jobType, random)
  {
    var rec := RecordOf(prims, now, appId, jobType, random);
    PayloadParts(prims, rec);
    TimestampValue(rec);
    ChecksumBytes(prims, Header(rec));
  }

  lemma IdIdentifies(prims: Primitives, now: int, appId: string, jobType: string, random: seq<byte>)
    requires |random| == 4
    ensures Identifies(prims, IdOf(prims, RecordOf(prims, now, appId, jobType, random)), now, appId, jobType, random)
  {
    var bs := Payload(prims, RecordOf(prims, now, appId, jobType, random));
    assert (PREFIX + Encode(bs))[5..] == Encode(bs);
    DecodeEncode(bs);
    PayloadSpells(prims, now, appId, jobType, random);
  }

  lemma PayloadParts(prims: Primitives, rec: Record)
    requires rec.Valid()
    ensures var bs := Payload(prims, rec);
            && bs[1..7] == Timestamp(rec) && bs[7..11] == rec.appHash && bs[11..15] == rec.typeHash
            && bs[15..19] == rec.random && bs[..HEADER_SIZE] == Header(rec)
            && bs[HEADER_SIZE..] == Checksum(prims, Header(rec))
  {
  }

  method Generate(prims: Primitives, now: int, appId: string, jobType: string, random: seq<byte>) returns (id: string)
    requires |random| == 4
    ensures id == IdOf(prims, RecordOf(prims, now, appId, jobType, random))
    ensures Identifies(prims, id, now, appId, jobType, random)
  {
    IdIdentifies(prims, now, appId, jobType, random);
    var payload := new byte[PAYLOAD_SIZE];
    WriteHeader(payload, prims, now, appId, jobType, random);
    var checksum := prims.crc32(payload[..HEADER_SIZE]) % 0x1_0000;
    ChecksumBytes(prims, payload[..HEADER_SIZE]);
    payload[19] := ToByte(checksum / 0x100);
    payload[20] := ToByte(checksum);
    assert payload[..] == payload[..HEADER_SIZE] + [ToByte(checksum / 0x100), ToByte(checksum)];
    var text := EncodeBase62(payload);
    id := PREFIX + text;
  }

  // ---------- an identifier can be decoded ----------

  lemma DecodeIdInverse(prims: Primitives, rec: Record)
    requires rec.Valid()
    ensures DecodeId(prims, IdOf(prims, rec)) == Some(rec)
  {
    var bs := Payload(prims, rec);
    assert IdOf(prims, rec)[|PREFIX|..] == Encode(bs);
    DecodeEncode(bs);
    PayloadParts(prims, rec);
    TimestampValue(rec);
  }

  lemma HeaderParts(bs: seq<byte>)
    requires |bs| == PAYLOAD_SIZE
    ensures bs[..HEADER_SIZE] == [bs[0]] + bs[1..7] + bs[7..11] + bs[11..15] + bs[15..19]
  {
  }

  /** Only identifiers the generator can make are accepted, so the checksum always fits. */
  lemma DecodeIdSound(prims: Primitives, id: string)
    requires DecodeId(prims, id).Some?
    ensures DecodeId(prims, id).value.Valid()
    ensures IdOf(prims, DecodeId(prims, id).value) == id
  {
    var bs := Decode(id[|PREFIX|..]).value;
    var rec := DecodeId(prims, id).value;
    TimestampUnique(rec, bs[1..7]);
    HeaderParts(bs);
    assert bs == Header(rec) + bs[HEADER_SIZE..];
    EncodeDecode(id[|PREFIX|..]);
  }

  /** Two generated identifiers coincide exactly when every recorded field does. */
  lemma SameIdIff(prims: Primitives,
                  now1: int, app1: string, type1: string, random1: seq<byte>,
                  now2: int, app2: string, type2: string, random2: seq<byte>)
    requires |random1| == 4 && |random2| == 4
    ensures IdOf(prims, RecordOf(prims, now1, app1, type1, random1))
         == IdOf(prims, RecordOf(prims, now2, app2, type2, random2))
       <==> && now1 % TIMESTAMPS == now2 % TIMESTAMPS
            && prims.sha256(app1)[..4] == prims.sha256(app2)[..4]
            && prims.sha256(type1)[..4] == prims.sha256(type2)[..4]
            && random1 == random2
  {
    DecodeIdInverse(prims, RecordOf(prims, now1, app1, type1, random1));
    DecodeIdInverse(prims, RecordOf(prims, now2, app2, type2, random2));
  }

  // ---------- identifiers sort by time, until they grow ----------

  function PayloadValue(prims: Primitives, rec: Record): nat
    requires rec.Valid()
  {
    Value(Payload(prims, rec), 256)
  }

  /** The timestamp fills the high bits; everything after it is worth less than one millisecond. */
  lemma PayloadRange(prims: Primitives, rec: Record)
    requires rec.Valid()
    ensures (TIMESTAMPS + rec.millis) * Pow(256, 14) <= PayloadValue(prims, rec)
         < (TIMESTAMPS + rec.millis + 1) * Pow(256, 14)
  {
    var top: seq<nat> := [VERSION] + Timestamp(rec);
    var tail: seq<nat> := rec.appHash + rec.typeHash + rec.random + Checksum(prims, Header(rec));
    assert Payload(prims, rec) == top + tail;
    ValueConcat(top, tail, 256);
    ValueBound(tail, 256);
    ValueFront(top, 256);
    assert top[1..] == Timestamp(rec);
    TimestampWidth();
    TimestampValue(rec);
    MulSucc(TIMESTAMPS + rec.millis, Pow(256, 14));
  }

  lemma PayloadText(prims: Primitives, rec: Record)
    requires rec.Valid()
    ensures Bounded(Digits(PayloadValue(prims, rec), 62), 62)
    ensures Encode(Payload(prims, rec)) == Text(Digits(PayloadValue(prims, rec), 62))
  {
    assert Payload(prims, rec)[0] == VERSION;
    EncodeParts(Payload(prims, rec));
    assert seq(0, _ => '0') + Text(Digits(PayloadValue(prims, rec), 62)) == Text(Digits(PayloadValue(prims, rec), 62));
  }

  lemma PowerFacts()
    ensures 2 * Pow(62, 26) <= TIMESTAMPS * Pow(256, 14)
    ensures 2 * TIMESTAMPS * Pow(256, 14) <= 2 * Pow(62, 27) <= Pow(62, 28)
    ensures (TIMESTAMPS + ROLLOVER) * Pow(256, 14) < Pow(62, 27) < (TIMESTAMPS + ROLLOVER + 1) * Pow(256, 14)
  {
    assert Pow(62, 13) == 200028539268669788905472;
    PowAdd(62, 13, 13);
    assert Pow(256, 7) == 72057594037927936;
    PowAdd(256, 7, 7);
  }

  lemma PayloadSize(prims: Primitives, rec: Record)
    requires rec.Valid()
    ensures TIMESTAMPS * Pow(256, 14) <= PayloadValue(prims, rec) < 2 * TIMESTAMPS * Pow(256, 14)
  {
    PayloadRange(prims, rec);
    PowPositive(256, 14);
    MulLe(TIMESTAMPS, TIMESTAMPS + rec.millis, Pow(256, 14));
    MulLe(TIMESTAMPS + rec.millis + 1, 2 * TIMESTAMPS, Pow(256, 14));
  }

  lemma DigitCount(v: nat)
    requires TIMESTAMPS * Pow(256, 14) <= v < 2 * TIMESTAMPS * Pow(256, 14)
    ensures |Digits(v, 62)| == if v < Pow(62, 27) then 27 else 28
  {
    PowerFacts();
    DigitsLength(v, 27, 62);
    DigitsLength(v, 28, 62);
  }

  /** An identifier has 27 digits below 62^27 and 28 from there on. */
  lemma IdLength(prims: Primitives, rec: Record)
    requires rec.Valid()
    ensures |IdOf(prims, rec)| == |PREFIX| + if PayloadValue(prims, rec) < Pow(62, 27) then 27 else 28
  {
    PayloadSize(prims, rec);
    PayloadText(prims, rec);
    DigitCount(PayloadValue(prims, rec));
  }

  /** Only the rollover millisecond itself can have identifiers of either length. */
  lemma IdLengthByTime(prims: Primitives, rec: Record)
    requires rec.Valid()
    ensures rec.millis < ROLLOVER ==> |IdOf(prims, rec)| == |PREFIX| + 27
    ensures rec.millis > ROLLOVER ==> |IdOf(prims, rec)| == |PREFIX| + 28
  {
    IdLength(prims, rec);
    PayloadByTime(PayloadValue(prims, rec), rec.millis, Pow(256, 14), Pow(62, 27)) by {
      PayloadRange(prims, rec);
      PowerFacts();
    }
  }

  /** p stands for the weight of a millisecond, limit for the first number with another digit. */
  lemma PayloadByTime(v: nat, millis: nat, p: nat, limit: nat)
    requires (TIMESTAMPS + millis) * p <= v < (TIMESTAMPS + millis + 1) * p
    requires (TIMESTAMPS + ROLLOVER) * p < limit < (TIMESTAMPS + ROLLOVER + 1) * p
    ensures millis < ROLLOVER ==> v < limit
    ensures millis > ROLLOVER ==> v >= limit
  {
    MulLe(TIMESTAMPS + millis + 1, TIMESTAMPS + ROLLOVER, p);
    MulLe(TIMESTAMPS + ROLLOVER + 1, TIMESTAMPS + millis, p);
  }

  /** Every character is one of those a Cloud Tasks task name may have. */
  predicate LegalInTaskName(c: char) {
    'a' <= c <= 'z' || 'A' <= c <= 'Z' || '0' <= c <= '9' || c == '_' || c == '-'
  }

  lemma IdIsLegalTaskName(prims: Primitives, rec: Record, i: nat)
    requires rec.Valid() && i < |IdOf(prims, rec)|
    ensures LegalInTaskName(IdOf(prims, rec)[i])
  {
    var ds := Digits(PayloadValue(prims, rec), 62);
    PayloadText(prims, rec);
    if i >= |PREFIX| {
      AlphabetCode(ds[i - |PREFIX|]);
    }
  }

  lemma {:induction false} LexAfterPrefix(p: string, a: string, b: string)
    ensures LexLess(Codes(p + a), Codes(p + b)) <==> LexLess(Codes(a), Codes(b))
  {
    if p == "" {
      assert p + a == a && p + b == b;
    } else {
      assert Codes(p + a)[1..] == Codes(p[1..] + a);
      assert Codes(p + b)[1..] == Codes(p[1..] + b);
      LexAfterPrefix(p[1..], a, b);
    }
  }

  /** How the digits of two positive numbers compare as texts. */
  lemma DigitsOrder(v1: nat, v2: nat)
    requires TIMESTAMPS * Pow(256, 14) <= v1 < v2 < 2 * TIMESTAMPS * Pow(256, 14)
    ensures LexLess(Digits(v1, 62), Digits(v2, 62)) <==> !(v1 < Pow(62, 27) <= v2)
    ensures LexLess(Digits(v2, 62), Digits(v1, 62)) <==> v1 < Pow(62, 27) <= v2
  {
    var d1, d2 := Digits(v1, 62), Digits(v2, 62);
    DigitsValue(v1, 62);
    DigitsValue(v2, 62);
    DigitCount(v1);
    DigitCount(v2);
    if v1 < Pow(62, 27) <= v2 {
      FirstDigits(v1, v2);
    } else {
      LexIsNumeric(d1, d2, 62);
      LexIsNumeric(d2, d1, 62);
    }
  }

  /** Across the rollover the shorter identifier starts with the greater digit. */
  lemma FirstDigits(v1: nat, v2: nat)
    requires TIMESTAMPS * Pow(256, 14) <= v1 < Pow(62, 27) <= v2 < 2 * TIMESTAMPS * Pow(256, 14)
    ensures Digits(v1, 62) != [] && Digits(v2, 62) != [] && Digits(v1, 62)[0] > Digits(v2, 62)[0]
  {
    PowerFacts();
    LeadOfShort(v1);
    LeadOfLong(v2);
  }

  lemma LeadOfShort(v: nat)
    requires 2 * Pow(62, 26) <= v < Pow(62, 27)
    ensures Digits(v, 62) != [] && Digits(v, 62)[0] >= 2
  {
    PowPositive(62, 26);
    LeadingDigit(v, 27);
    LeadAtLeastTwo(Digits(v, 62)[0], v, Pow(62, 26));
  }

  lemma LeadOfLong(v: nat)
    requires Pow(62, 27) <= v < 2 * Pow(62, 27) <= Pow(62, 28)
    ensures Digits(v, 62) != [] && Digits(v, 62)[0] <= 1
  {
    PowPositive(62, 27);
    LeadingDigit(v, 28);
    LeadAtMostOne(Digits(v, 62)[0], v, Pow(62, 27));
  }

  lemma LeadAtLeastTwo(d: nat, v: nat, p: nat)
    requires 2 * p <= v < (d + 1) * p
    ensures d >= 2
  {
  }

  lemma LeadAtMostOne(d: nat, v: nat, p: nat)
    requires d * p <= v < 2 * p
    ensures d <= 1
  {
  }

  lemma LeadingDigit(v: nat, n: nat)
    requires n > 0 && Pow(62, n - 1) <= v < Pow(62, n) && v > 0
    ensures |Digits(v, 62)| == n
    ensures Digits(v, 62)[0] * Pow(62, n - 1) <= v < (Digits(v, 62)[0] + 1) * Pow(62, n - 1)
  {
    var ds := Digits(v, 62);
    DigitsLength(v, n, 62);
    DigitsValue(v, 62);
    FirstDigitWeighs(ds, 62);
  }

  /** A later timestamp always means a greater payload, whatever follows it. */
  lemma LaterIsGreater(prims: Primitives, rec1: Record, rec2: Record)
    requires rec1.Valid() && rec2.Valid() && rec1.millis < rec2.millis
    ensures PayloadValue(prims, rec1) < PayloadValue(prims, rec2)
  {
    PayloadRange(prims, rec1);
    PayloadRange(prims, rec2);
    MulLe(TIMESTAMPS + rec1.millis + 1, TIMESTAMPS + rec2.millis, Pow(256, 14));
  }

  /** Identifiers compare as the digits of their payloads do. */
  lemma IdsCompare(prims: Primitives, rec1: Record, rec2: Record)
    requires rec1.Valid() && rec2.Valid()
    ensures LexLess(Codes(IdOf(prims, rec1)), Codes(IdOf(prims, rec2)))
       <==> LexLess(Digits(PayloadValue(prims, rec1), 62), Digits(PayloadValue(prims, rec2), 62))
  {
    var d1, d2 := Digits(PayloadValue(prims, rec1), 62), Digits(PayloadValue(prims, rec2), 62);
    PayloadText(prims, rec1);
    PayloadText(prims, rec2);
    LexAfterPrefix(PREFIX, Text(d1), Text(d2));
    TextOrder(d1, d2);
  }

  /**
   * Of two identifiers the earlier one sorts first, unless the two lie on different sides
   * of the point where identifiers grow by a digit; then the later one sorts first.
   */
  lemma IdOrder(prims: Primitives, rec1: Record, rec2: Record)
    requires rec1.Valid() && rec2.Valid() && rec1.millis < rec2.millis
    ensures LexLess(Codes(IdOf(prims, rec1)), Codes(IdOf(prims, rec2)))
       <==> !(PayloadValue(prims, rec1) < Pow(62, 27) <= PayloadValue(prims, rec2))
    ensures LexLess(Codes(IdOf(prims, rec2)), Codes(IdOf(prims, rec1)))
       <==> PayloadValue(prims, rec1) < Pow(62, 27) <= PayloadValue(prims, rec2)
  {
    LaterIsGreater(prims, rec1, rec2);
    PayloadSize(prims, rec1);
    PayloadSize(prims, rec2);
    IdsCompare(prims, rec1, rec2);
    IdsCompare(prims, rec2, rec1);
    DigitsOrder(PayloadValue(prims, rec1), PayloadValue(prims, rec2));
  }

  /**
   * In terms of what a caller sees: identifiers sort by time exactly if they are equally long,
   * and two made on different sides of the rollover millisecond sort the other way round.
   */
  lemma IdOrderByTime(prims: Primitives, rec1: Record, rec2: Record)
    requires rec1.Valid() && rec2.Valid() && rec1.millis < rec2.millis
    ensures var id1, id2 := IdOf(prims, rec1), IdOf(prims, rec2);
            && (LexLess(Codes(id1), Codes(id2)) <==> |id1| == |id2|)
            && (LexLess(Codes(id2), Codes(id1)) <==> |id1| < |id2|)
            && (rec2.millis < ROLLOVER || rec1.millis > ROLLOVER ==> |id1| == |id2|)
            && (rec1.millis < ROLLOVER < rec2.millis ==> |id1| < |id2|)
  {
    IdOrder(prims, rec1, rec2);
    LaterIsGreater(prims, rec1, rec2);
    IdLength(prims, rec1);
    IdLength(prims, rec2);
    IdLengthByTime(prims, rec1);
    IdLengthByTime(prims, rec2);
  }

  /** Two concrete clock readings, two milliseconds apart, whose identifiers sort backwards. */
  lemma SortingBreaksAtRollover(prims: Primitives, appId: string, jobType: string, random: seq<byte>)
    requires |random| == 4
    ensures var earlier := IdOf(prims, RecordOf(prims, 196291971510672, appId, jobType, random));
            var later := IdOf(prims, RecordOf(prims, 196291971510674, appId, jobType, random));
            LexLess(Codes(later), Codes(earlier))
  {
    IdOrderByTime(prims, RecordOf(prims, 196291971510672, appId, jobType, random),
                  RecordOf(prims, 196291971510674, appId, jobType, random));
  }
}
