/** Base-62 text for byte strings, as job identifiers carry it, and its decoder. */
module Base62 {
  import opened Wrappers
  import opened Radix

  const NUMERALS: string := "0123456789"
  const UPPER: string := "ABCDEFGHIJKLM" + "NOPQRSTUVWXYZ"
  const LOWER: string := "abcdefghijklm" + "nopqrstuvwxyz"
  const ALPHABET: string := NUMERALS + UPPER + LOWER

  // ---------- specification ----------

  function Text(ds: seq<nat>): (s: string)
    requires Bounded(ds, 62)
    ensures |s| == |ds|
  {
    seq(|ds|, i requires 0 <= i < |ds| => ALPHABET[ds[i]])
  }

  function Encode(data: seq<byte>): string {
    RecodeBounded(data, 256, 62);
    Text(Recode(data, 256, 62))
  }

  function DigitOf(c: char): Option<nat> {
    if '0' <= c <= '9' then Some(c as int - '0' as int)
    else if 'A' <= c <= 'Z' then Some(c as int - 'A' as int + 10)
    else if 'a' <= c <= 'z' then Some(c as int - 'a' as int + 36)
    else None
  }

  predicate InAlphabet(s: string) {
    forall i :: 0 <= i < |s| ==> DigitOf(s[i]).Some?
  }

  function DigitsOf(s: string): (ds: seq<nat>)
    requires InAlphabet(s)
    ensures |ds| == |s|
    ensures Bounded(ds, 62)
  {
    seq(|s|, i requires 0 <= i < |s| => DigitOf(s[i]).value)
  }

  /** The decoder the service itself does not ship. */
  function Decode(s: string): (data: Option<seq<byte>>)
    ensures data.Some? <==> InAlphabet(s)
  {
    if InAlphabet(s) then
      RecodeBounded(DigitsOf(s), 62, 256);
      Some(AsBytes(Recode(DigitsOf(s), 62, 256)))
    else
      None
  }

  function AsBytes(ds: seq<nat>): (bs: seq<byte>)
    requires Bounded(ds, 256)
    ensures bs == ds
  {
    seq(|ds|, i requires 0 <= i < |ds| => ds[i])
  }

  /** The code points of a string, for comparing strings byte by byte. */
  function Codes(s: string): (cs: seq<int>)
    ensures |cs| == |s|
  {
    seq(|s|, i requires 0 <= i < |s| => s[i] as int)
  }

  // ---------- the alphabet ----------

  lemma NumeralCode(d: nat)
    requires d < 10
    ensures NUMERALS[d] as int == '0' as int + d
  {
  }

  lemma UpperCode(d: nat)
    requires d < 26
    ensures UPPER[d] as int == 'A' as int + d
  {
  }

  lemma LowerCode(d: nat)
    requires d < 26
    ensures LOWER[d] as int == 'a' as int + d
  {
  }

  /** A digit's character has the digit back as its value, and greater digits have greater characters. */
  lemma AlphabetCode(d: nat)
    requires d < 62
    ensures ALPHABET[d] as int == if d < 10 then 48 + d else if d < 36 then 55 + d else 61 + d
    ensures DigitOf(ALPHABET[d]) == Some(d)
  {
    if d < 10 {
      assert ALPHABET[d] == NUMERALS[d];
      NumeralCode(d);
    } else if d < 36 {
      assert ALPHABET[d] == UPPER[d - 10];
      UpperCode(d - 10);
    } else {
      assert ALPHABET[d] == LOWER[d - 36];
      LowerCode(d - 36);
    }
  }

  lemma TextInverse(ds: seq<nat>)
    requires Bounded(ds, 62)
    ensures InAlphabet(Text(ds)) && DigitsOf(Text(ds)) == ds
  {
    forall i | 0 <= i < |ds|
      ensures DigitOf(Text(ds)[i]) == Some(ds[i])
    {
      AlphabetCode(ds[i]);
    }
  }

  lemma DigitsOfInverse(s: string)
    requires InAlphabet(s)
    ensures Text(DigitsOf(s)) == s
  {
  }

  /** The alphabet is in increasing code order, so texts compare as their digits do. */
  lemma {:induction false} TextOrder(a: seq<nat>, b: seq<nat>)
    requires Bounded(a, 62) && Bounded(b, 62)
    ensures LexLess(Codes(Text(a)), Codes(Text(b))) <==> LexLess(a, b)
  {
    if a != [] && b != [] {
      AlphabetCode(a[0]);
      AlphabetCode(b[0]);
      assert Codes(Text(a))[1..] == Codes(Text(a[1..]));
      assert Codes(Text(b))[1..] == Codes(Text(b[1..]));
      TextOrder(a[1..], b[1..]);
    }
  }

  // ---------- the code is a bijection ----------

  /** Decoding gives back every byte string: empty, all zero or with leading zeros. */
  lemma DecodeEncode(data: seq<byte>)
    ensures Decode(Encode(data)) == Some(data)
  {
    RecodeBounded(data, 256, 62);
    TextInverse(Recode(data, 256, 62));
    RecodeInverse(data, 256, 62);
  }

  /** Every string over the alphabet is the text of the byte string it decodes to. */
  lemma EncodeDecode(s: string)
    requires InAlphabet(s)
    ensures Encode(Decode(s).value) == s
  {
    RecodeBounded(DigitsOf(s), 62, 256);
    RecodeInverse(DigitsOf(s), 62, 256);
    DigitsOfInverse(s);
  }

  lemma EncodeInjective(a: seq<byte>, b: seq<byte>)
    requires Encode(a) == Encode(b)
    ensures a == b
  {
    DecodeEncode(a);
    DecodeEncode(b);
  }

  // ---------- length ----------

  lemma {:induction false} TwoDigitsHoldAByte(k: nat)
    ensures Pow(256, k) <= Pow(62, 2 * k)
  {
    if k > 0 {
      TwoDigitsHoldAByte(k - 1);
      assert Pow(62, 2 * k) == Pow(62, 2 * k - 1) * 62 == Pow(62, 2 * (k - 1)) * 62 * 62;
    }
  }

  /** A number below 62^k has at most k base-62 digits. */
  lemma DigitsAtMost(v: nat, k: nat)
    requires v < Pow(62, k)
    ensures |Digits(v, 62)| <= k
  {
  }

  /** The text of n bytes never outgrows a buffer of 2n characters. */
  lemma EncodeLength(data: seq<byte>)
    ensures |Encode(data)| == LeadingZeros(data) + |Digits(Value(data, 256), 62)| <= 2 * |data|
    ensures data != [] ==> Encode(data) != ""
  {
    var z := LeadingZeros(data);
    var rest := data[z..];
    assert data == Zeros(z) + rest;
    ValueSkipsZeros(z, rest, 256);
    ValueBound(rest, 256);
    TwoDigitsHoldAByte(|rest|);
    DigitsAtMost(Value(data, 256), 2 * |rest|);
    ValueZeroIff(data, 256);
  }

  // ---------- the algorithm ----------

  method IsZero(data: array<byte>) returns (zero: bool)
    ensures zero <==> Value(data[..], 256) == 0
  {
    ValueZeroIff(data[..], 256);
    for i := 0 to data.Length
      invariant forall k :: 0 <= k < i ==> data[k] == 0
    {
      if data[i] != 0 {
        assert data[..][i] != 0;
        return false;
      }
    }
    return true;
  }

  /** A quotient digit of the long division never exceeds 255, so a byte holds it. */
  lemma QuotientDigit(rest: nat, next: nat)
    requires rest < 62 && next < 256
    ensures var val := rest * 256 + next;
            && 0 <= val / 62 < 256 && ToByte(val / 62) == val / 62
            && 0 <= val % 62 < 62
            && val / 62 * 62 + val % 62 == val
  {
  }

  /** What holds after some digits: the quotient digits and the rest account for them. */
  ghost predicate Divided(done: seq<nat>, quotient: seq<nat>, rest: nat) {
    rest < 62 && Value(quotient, 256) * 62 + rest == Value(done, 256)
  }

  /** One step of long division: bring down a digit, append a quotient digit, keep the rest. */
  lemma DivideStep(done: seq<nat>, quotient: seq<nat>, rest: nat, next: nat, q: nat, r: nat)
    requires Divided(done, quotient, rest)
    requires r < 62 && q * 62 + r == rest * 256 + next
    ensures Divided(done + [next], quotient + [q], r)
  {
  }

  /** Long division is exact. */
  lemma DivideDone(input: seq<nat>, quotient: seq<nat>, rest: nat)
    requires Divided(input, quotient, rest)
    ensures Value(quotient, 256) == Value(input, 256) / 62
    ensures rest == Value(input, 256) % 62
  {
  }

  /** Divides the big-endian number in place; the quotient keeps its width. */
  method DivideBy62(num: array<byte>) returns (remainder: nat)
    modifies num
    ensures Value(num[..], 256) == old(Value(num[..], 256)) / 62
    ensures remainder == old(Value(num[..], 256)) % 62
  {
    ghost var input: seq<byte> := num[..];
    ghost var done: seq<nat>, quotient: seq<nat> := [], [];
    remainder := 0;
    var i := 0;
    while i < num.Length
      invariant 0 <= i <= num.Length && |quotient| == |done| == i
      invariant forall k :: 0 <= k < i ==> num[k] == quotient[k] && done[k] == input[k]
      invariant forall k :: i <= k < num.Length ==> num[k] == input[k]
      invariant Divided(done, quotient, remainder)
    {
      QuotientDigit(remainder, num[i]);
      var val := remainder * 256 + num[i];
      ghost var q, r := val / 62, val % 62;
      DivideStep(done, quotient, remainder, input[i], q, r);
      num[i] := ToByte(val / 62);
      remainder := val % 62;
      done, quotient := done + [input[i]], quotient + [q];
      i := i + 1;
    }
    assert num[..] == quotient && input == done;
    DivideDone(input, num[..], remainder);
  }

  function Reversed(s: string): (r: string)
    ensures |r| == |s|
  {
    seq(|s|, i requires 0 <= i < |s| => s[|s| - 1 - i])
  }

  /** Reverses the first n characters of a buffer by swapping from both ends. */
  method ReversePrefix(buf: array<char>, n: nat)
    requires n <= buf.Length
    modifies buf
    ensures buf[..n] == Reversed(old(buf[..n]))
  {
    var i, j := 0, n - 1;
    while i < j
      invariant 0 <= i <= n && j == n - 1 - i && i <= j + 2
      invariant forall k :: 0 <= k < i ==> buf[k] == old(buf[n - 1 - k]) && buf[n - 1 - k] == old(buf[k])
      invariant forall k :: i <= k < n - i ==> buf[k] == old(buf[k])
    {
      buf[i], buf[j] := buf[j], buf[i];
      i, j := i + 1, j - 1;
    }
  }

  /**
   * What the division loop has done when the number left is v: the characters written,
   * read backwards, complete the digits of v to those of the whole input.
   */
  ghost predicate Emitted(digits: string, v: nat, written: string) {
    && Bounded(Digits(v, 62), 62)
    && digits == Text(Digits(v, 62)) + Reversed(written)
  }

  /** One round of the loop makes progress and fits in a buffer as long as the result. */
  lemma EmitOne(digits: string, v: nat, written: string)
    requires v > 0 && Emitted(digits, v, written)
    ensures v / 62 < v && 0 <= v % 62 < 62
    ensures Emitted(digits, v / 62, written + [ALPHABET[v % 62]])
    ensures |written| < |digits|
  {
    DivShrinks(v, 62);
    DigitsValue(v / 62, 62);
    var c := ALPHABET[v % 62];
    assert Text(Digits(v, 62)) == Text(Digits(v / 62, 62)) + [c];
    assert Reversed(written + [c]) == [c] + Reversed(written);
  }

  method Copy(data: array<byte>) returns (num: array<byte>)
    ensures fresh(num) && num[..] == data[..]
  {
    num := new byte[data.Length];
    for k := 0 to data.Length
      invariant num[..k] == data[..k]
    {
      num[k] := data[k];
    }
  }

  /** Divides until nothing is left and writes the remainders, lowest digit first. */
  method EmitDigits(num: array<byte>, buf: array<char>, ghost digits: string) returns (len: nat)
    requires num as object != buf
    requires Emitted(digits, Value(num[..], 256), "") && |digits| <= buf.Length
    modifies num, buf
    ensures len <= buf.Length && Reversed(buf[..len]) == digits
  {
    len := 0;
    ghost var v, written := Value(num[..], 256), "";
    var zero := IsZero(num);
    while !zero
      invariant len <= buf.Length && buf[..len] == written
      invariant v == Value(num[..], 256) && (zero <==> v == 0)
      invariant Emitted(digits, v, written)
      decreases v
    {
      EmitOne(digits, v, written);
      var remainder := DivideBy62(num);
      buf[len] := ALPHABET[remainder];
      len := len + 1;
      v, written := v / 62, written + [ALPHABET[v % 62]];
      zero := IsZero(num);
    }
    assert digits == "" + Reversed(written);
  }

  /** The digits of a number, most significant first: the remainders in reverse. */
  method DivideOut(data: array<byte>) returns (result: string)
    ensures Bounded(Digits(Value(data[..], 256), 62), 62)
    ensures result == Text(Digits(Value(data[..], 256), 62))
  {
    DigitsValue(Value(data[..], 256), 62);
    EncodeLength(data[..]);
    ghost var digits := Text(Digits(Value(data[..], 256), 62));

    var buf := new char[2 * data.Length];
    var num := Copy(data);
    assert digits == digits + Reversed("");
    var len := EmitDigits(num, buf, digits);
    ghost var reversed := buf[..len];
    ReversePrefix(buf, len);
    assert Reversed(reversed) == buf[..len];
    result := buf[..len];
  }

  lemma TextOfZeros(z: nat, ds: seq<nat>)
    requires Bounded(ds, 62)
    ensures Bounded(Zeros(z) + ds, 62)
    ensures Text(Zeros(z) + ds) == seq(z, _ => '0') + Text(ds)
  {
  }

  /** An encoding is one '0' for each leading zero byte, then the digits of the number. */
  lemma EncodeParts(data: seq<byte>)
    ensures Bounded(Digits(Value(data, 256), 62), 62)
    ensures Encode(data) == seq(LeadingZeros(data), _ => '0') + Text(Digits(Value(data, 256), 62))
  {
    DigitsValue(Value(data, 256), 62);
    TextOfZeros(LeadingZeros(data), Digits(Value(data, 256), 62));
  }

  /** Puts one zero digit in front for each zero byte the data starts with. */
  method PrependZeros(data: array<byte>, digits: string) returns (result: string)
    ensures result == seq(LeadingZeros(data[..]), _ => '0') + digits
  {
    assert ALPHABET[0] == '0' by { AlphabetCode(0); }
    result := digits;
    var i := 0;
    while i < data.Length && data[i] == 0
      invariant 0 <= i <= data.Length
      invariant forall k :: 0 <= k < i ==> data[k] == 0
      invariant result == seq(i, _ => '0') + digits
    {
      result := [ALPHABET[0]] + result;
      i := i + 1;
    }
    assert LeadingZeros(data[..]) == i;
  }

  /**
   * The source's last fallback, "0" for an empty result, is never taken: data that is not
   * empty either has a leading zero or a digit.
   */
  method EncodeBase62(data: array<byte>) returns (s: string)
    ensures s == Encode(data[..])
  {
    if data.Length == 0 {
      EncodeParts(data[..]);
      return "";
    }
    var digits := DivideOut(data);
    s := PrependZeros(data, digits);
    EncodeParts(data[..]);
    EncodeLength(data[..]);
    assert |s| != 0;
  }
}
