/**
 The VarInt codec of the status protocol. A 32-bit integer is taken as its bit pattern, so negative
 numbers are the patterns with the top bit set; the conversions between the two are the identity here.
 */
module VarInt {
  // ---- unsigned LEB128 (section 7.6 of DWARF Version 4) ------------------------------------------

  predicate Continues(b: bv8) {
    b & 0x80 != 0
  }

  function Low(u: bv32): bv8 {
    (u & 0x7F) as bv8
  }

  function Payload(b: bv8): bv32 {
    (b & 0x7F) as bv32
  }

  // Seven bits a byte, the lowest first; all bytes but the last have the top bit set.
  function Encode(u: bv32): seq<bv8>
    decreases u
  {
    if u < 0x80 then [Low(u)] else [Low(u) | 0x80] + Encode(u >> 7)
  }

  function Value(bytes: seq<bv8>): bv32 {
    if bytes == [] then 0 else Payload(bytes[0]) | (Value(bytes[1..]) << 7)
  }

  predicate Terminated(bytes: seq<bv8>) {
    && bytes != [] && !Continues(bytes[|bytes| - 1])
    && forall k :: 0 <= k < |bytes| - 1 ==> Continues(bytes[k])
  }

  lemma SevenBits(u: bv32)
    ensures u < 0x80 ==> Payload(Low(u)) == u && !Continues(Low(u))
    ensures Payload(Low(u) | 0x80) | ((u >> 7) << 7) == u && Continues(Low(u) | 0x80)
  {
  }

  lemma {:induction false} EncodingIsTerminated(u: bv32)
    ensures Terminated(Encode(u)) && Value(Encode(u)) == u
    decreases u
  {
    SevenBits(u);
    if u < 0x80 {
      assert Encode(u)[1..] == [];
    } else {
      EncodingIsTerminated(u >> 7);
      assert Encode(u)[1..] == Encode(u >> 7);
    }
  }

  // The digit of weight 128 to the i.
  function Digit(u: bv32, i: nat): bv32
    requires i < 5
  {
    match i
    case 0 => u % 0x80
    case 1 => (u / 0x80) % 0x80
    case 2 => (u / 0x4000) % 0x80
    case 3 => (u / 0x20_0000) % 0x80
    case _ => (u / 0x1000_0000) % 0x80
  }

  lemma FirstDigit(u: bv32)
    ensures (Low(u) as bv32) % 0x80 == u % 0x80 && ((Low(u) | 0x80) as bv32) % 0x80 == u % 0x80
  {
  }

  lemma NextDigit(u: bv32, i: nat)
    requires 1 <= i < 5
    ensures Digit(u >> 7, i - 1) == Digit(u, i)
  {
    match i {
      case 1 => assert (u >> 7) % 0x80 == (u / 0x80) % 0x80;
      case 2 => assert ((u >> 7) / 0x80) % 0x80 == (u / 0x4000) % 0x80;
      case 3 => assert ((u >> 7) / 0x4000) % 0x80 == (u / 0x20_0000) % 0x80;
      case _ => assert ((u >> 7) / 0x20_0000) % 0x80 == (u / 0x1000_0000) % 0x80;
    }
  }

  // As a number, each byte is such a digit, up to the bit that says whether more follow.
  lemma {:induction false} BytesAreDigits(u: bv32, i: nat)
    requires i < |Encode(u)| && i < 5
    ensures (Encode(u)[i] as bv32) % 0x80 == Digit(u, i)
    decreases i
  {
    if i == 0 {
      FirstDigit(u);
      assert Encode(u)[0] == Low(u) || Encode(u)[0] == Low(u) | 0x80;
    } else {
      assert Encode(u)[i] == Encode(u >> 7)[i - 1];
      BytesAreDigits(u >> 7, i - 1);
      NextDigit(u, i);
    }
  }

  // The largest value that n bytes hold.
  function Largest(n: nat): bv32 {
    if n == 0 then 0 else (Largest(n - 1) << 7) | 0x7F
  }

  predicate IsLargest(max: bv32) {
    max == 0 || max == 0x7F || max == 0x3FFF || max == 0x1F_FFFF || max == 0xFFF_FFFF || max == 0xFFFF_FFFF
  }

  lemma {:induction false} LargestValues(n: nat)
    ensures IsLargest(Largest(n)) && (n <= 3 ==> Largest(n) <= 0x1F_FFFF) && (n >= 1 ==> Largest(n) >= 0x7F)
    ensures n >= 5 ==> Largest(n) == 0xFFFF_FFFF
  {
    if n > 0 {
      LargestValues(n - 1);
      LargestGrows(Largest(n - 1), n);
    }
    if 0 < n <= 5 {
      FiveLargest();
    }
  }

  lemma FiveLargest()
    ensures Largest(0) == 0 && Largest(1) == 0x7F && Largest(2) == 0x3FFF && Largest(3) == 0x1F_FFFF
    ensures Largest(4) == 0xFFF_FFFF && Largest(5) == 0xFFFF_FFFF
  {
    assert Largest(1) == 0x7F;
    assert Largest(2) == 0x3FFF;
    assert Largest(3) == 0x1F_FFFF;
    assert Largest(4) == 0xFFF_FFFF;
  }

  lemma LargestGrows(max: bv32, n: nat)
    requires IsLargest(max)
    ensures IsLargest((max << 7) | 0x7F)
    ensures max == 0xFFFF_FFFF ==> (max << 7) | 0x7F == 0xFFFF_FFFF
  {
  }

  lemma SevenBitsLess(u: bv32, max: bv32)
    requires IsLargest(max)
    ensures u <= ((max << 7) | 0x7F) <==> u >> 7 <= max
  {
  }

  // One byte for every seven bits, and so five at most.
  lemma {:induction false} EncodingLength(u: bv32, n: nat)
    requires n >= 1
    ensures |Encode(u)| <= n <==> u <= Largest(n)
    decreases n
  {
    LargestValues(n);
    LargestValues(n - 1);
    if n == 1 {
      FiveLargest();
      if u >= 0x80 {
        assert |Encode(u >> 7)| >= 1;
      }
    } else if u >= 0x80 {
      EncodingLength(u >> 7, n - 1);
      SevenBitsLess(u, Largest(n - 1));
    }
  }

  lemma SmallLargest(n: nat)
    requires n <= 3
    ensures Largest(n) == 0 || Largest(n) == 0x7F || Largest(n) == 0x3FFF || Largest(n) == 0x1F_FFFF
  {
    FiveLargest();
  }

  lemma {:induction false} FewBytesHoldLittle(bytes: seq<bv8>)
    requires |bytes| <= 4
    ensures Value(bytes) <= Largest(|bytes|)
  {
    if bytes != [] {
      FewBytesHoldLittle(bytes[1..]);
      SmallLargest(|bytes| - 1);
      OneMoreByte(bytes[0], Value(bytes[1..]), Largest(|bytes| - 1), Largest(|bytes|));
    }
  }

  lemma OneMoreByte(b: bv8, rest: bv32, max: bv32, max': bv32)
    requires rest <= max && max' == ((max << 7) | 0x7F)
    requires max == 0 || max == 0x7F || max == 0x3FFF || max == 0x1F_FFFF
    ensures Payload(b) | (rest << 7) <= max'
  {
  }

  // No sequence of bytes with the same value is shorter.
  lemma EncodingIsShortest(bytes: seq<bv8>)
    requires bytes != []
    ensures |Encode(Value(bytes))| <= |bytes| && |Encode(Value(bytes))| <= 5
  {
    EncodingLength(Value(bytes), 5);
    FiveLargest();
    if |bytes| <= 4 {
      FewBytesHoldLittle(bytes);
      EncodingLength(Value(bytes), |bytes|);
    }
  }

  // No encoding continues another one.
  lemma EncodingIsPrefixFree(u: bv32, v: bv32)
    requires Encode(u) <= Encode(v)
    ensures u == v
  {
    EncodingIsTerminated(u);
    EncodingIsTerminated(v);
    var s, t := Encode(u), Encode(v);
    assert t[|s| - 1] == s[|s| - 1];
    assert |s| == |t|;
    assert s == t;
  }

  // ---- the writer ------------------------------------------------------------------------------

  method WriteVarInt(v: bv32) returns (bytes: seq<bv8>)
    ensures bytes == Encode(v)
  {
    bytes := [];
    var u := v;
    while u & !0x7F != 0
      invariant bytes + Encode(u) == Encode(v)
      decreases u
    {
      assert u >= 0x80 && u >> 7 < u;
      assert Encode(u) == [Low(u) | 0x80] + Encode(u >> 7);
      assert bytes + Encode(u) == (bytes + [Low(u) | 0x80]) + Encode(u >> 7);
      bytes := bytes + [Low(u) | 0x80];
      u := u >> 7;
    }
    assert u < 0x80;
    bytes := bytes + [Low(u)];
  }

  // ---- the reader ------------------------------------------------------------------------------

  datatype Result = Read(value: bv32, consumed: nat) | EndOfInput | TooLong

  predicate AllContinue(bytes: seq<bv8>) {
    forall k :: 0 <= k < |bytes| ==> Continues(bytes[k])
  }

  // Five bytes are looked at, at most.
  predicate IsReading(input: seq<bv8>, r: Result) {
    match r
    case Read(value, n) => 1 <= n <= 5 && n <= |input| && Terminated(input[..n]) && value == Value(input[..n])
    case EndOfInput => |input| < 5 && AllContinue(input)
    case TooLong => |input| >= 5 && AllContinue(input[..5])
  }

  // How far the payload of byte i is shifted.
  function Shift(i: nat): bv32 {
    if i == 0 then 0 else if i == 1 then 7 else if i == 2 then 14 else if i == 3 then 21 else 28
  }

  function Add(v: bv32, b: bv8, i: nat): bv32 {
    v | (Payload(b) << Shift(i))
  }

  lemma {:induction false} ValueOfOneMore(bytes: seq<bv8>, b: bv8)
    requires |bytes| <= 4
    ensures Value(bytes + [b]) == Add(Value(bytes), b, |bytes|)
  {
    if bytes == [] {
      assert ([] + [b])[1..] == [];
    } else {
      var rest := bytes[1..];
      assert (bytes + [b])[1..] == rest + [b];
      ValueOfOneMore(rest, b);
      ShiftTogether(Payload(bytes[0]), Value(rest), Payload(b), Shift(|bytes|));
    }
  }

  lemma ShiftTogether(low: bv32, rest: bv32, top: bv32, shift: bv32)
    requires shift == 7 || shift == 14 || shift == 21 || shift == 28
    ensures low | ((rest | (top << (shift - 7))) << 7) == (low | (rest << 7)) | (top << shift)
  {
  }

  method ReadVarInt(input: seq<bv8>) returns (r: Result)
    ensures IsReading(input, r)
  {
    var v: bv32 := 0;
    for i := 0 to 5
      invariant i <= |input| && AllContinue(input[..i]) && v == Value(input[..i])
    {
      if i == |input| {
        assert input[..i] == input;
        return EndOfInput;
      }
      var b := input[i];
      assert input[..i + 1] == input[..i] + [b];
      ValueOfOneMore(input[..i], b);
      v := Add(v, b, i);
      if !Continues(b) {
        return Read(v, i + 1);
      }
    }
    r := TooLong;
  }

  lemma EndsThere(input: seq<bv8>, n: nat)
    requires n <= |input| && Terminated(input[..n])
    ensures !Continues(input[n - 1]) && forall k :: 0 <= k < n - 1 ==> Continues(input[k])
  {
    assert forall k :: 0 <= k < n ==> input[..n][k] == input[k];
  }

  lemma AllContinueThere(input: seq<bv8>, n: nat)
    requires n <= |input| && AllContinue(input[..n])
    ensures forall k :: 0 <= k < n ==> Continues(input[k])
  {
    assert forall k :: 0 <= k < n ==> input[..n][k] == input[k];
  }

  // There is one reading of an input.
  lemma ReadingIsUnique(input: seq<bv8>, r: Result, q: Result)
    requires IsReading(input, r) && IsReading(input, q)
    ensures r == q
  {
    if r.Read? {
      EndsThere(input, r.consumed);
    }
    if q.Read? {
      EndsThere(input, q.consumed);
    }
    if r.TooLong? || q.TooLong? {
      AllContinueThere(input, 5);
    }
  }

  // Whatever follows what was written: reading gives the number back and consumes what was written.
  lemma RoundTrip(v: bv32, rest: seq<bv8>, r: Result)
    requires IsReading(Encode(v) + rest, r)
    ensures r == Read(v, |Encode(v)|) && 1 <= |Encode(v)| <= 5
  {
    var bytes := Encode(v);
    EncodingIsTerminated(v);
    EncodingLength(v, 5);
    FiveLargest();
    assert (bytes + rest)[..|bytes|] == bytes;
    ReadingIsUnique(bytes + rest, r, Read(v, |bytes|));
  }
}
