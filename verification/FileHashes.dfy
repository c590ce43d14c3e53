/**
 The hashes of a jar, computed while it is read piece by piece, and the CurseForge fingerprint among
 them: MurmurHash2 with seed 1 over the content without white space.

 SHA-1 and SHA-512 are functions of the content here. A digest fed piece by piece is taken to be the
 digest of the concatenation.
 */
module FileHashes {
  import opened Wrappers

  type Bytes = seq<bv8>

  // ---- MurmurHash2 -----------------------------------------------------------------------------

  const M: bv32 := 0x5bd1_e995

  function Times(k: bv32): bv32 {
    k * M
  }

  function Scramble(k: bv32): bv32 {
    var k1 := Times(k);
    Times(k1 ^ (k1 >> 24))
  }

  function Block(h: bv32, k: bv32): bv32 {
    Times(h) ^ Scramble(k)
  }

  function Finalize(h: bv32): bv32 {
    var h1 := Times(h ^ (h >> 13));
    h1 ^ (h1 >> 15)
  }

  function ByteAt(bytes: Bytes, i: nat): bv32 {
    if i < |bytes| then bytes[i] as bv32 else 0
  }

  // The number that up to four bytes stand for, the lowest first.
  function LittleEndian(bytes: Bytes): bv32 {
    ByteAt(bytes, 0) | (ByteAt(bytes, 1) << 8) | (ByteAt(bytes, 2) << 16) | (ByteAt(bytes, 3) << 24)
  }

  function Length32(n: nat): bv32 {
    (n % 0x1_0000_0000) as bv32
  }

  // The state after the first n words of four bytes.
  function AfterWords(data: Bytes, seed: bv32, n: nat): bv32
    requires 4 * n <= |data|
  {
    if n == 0 then seed ^ Length32(|data|)
    else Block(AfterWords(data, seed, n - 1), LittleEndian(data[4 * (n - 1)..4 * n]))
  }

  // The one to three bytes that are left, as one number.
  function Tail(h: bv32, rest: Bytes): bv32 {
    if rest == [] then h else Times(h ^ LittleEndian(rest))
  }

  function Murmur2Of(data: Bytes, seed: bv32): bv32 {
    var n := |data| / 4;
    Finalize(Tail(AfterWords(data, seed, n), data[4 * n..]))
  }

  lemma XorTogether(h: bv32, a: bv32, b: bv32, c: bv32)
    requires a <= 0xFF && b <= 0xFF && c <= 0xFF
    ensures h ^ (a | (b << 8) | (c << 16) | (0 << 24)) == ((h ^ (c << 16)) ^ (b << 8)) ^ a
  {
  }

  // The last bytes, mixed in one by one from the highest.
  method MixTail(h: bv32, rest: Bytes) returns (h': bv32)
    requires 1 <= |rest| <= 3
    ensures h' == h ^ LittleEndian(rest)
  {
    XorTogether(h, ByteAt(rest, 0), ByteAt(rest, 1), ByteAt(rest, 2));
    h' := h;
    if |rest| == 3 {
      h' := h' ^ ((rest[2] as bv32) << 16);
    }
    if |rest| >= 2 {
      h' := h' ^ ((rest[1] as bv32) << 8);
    }
    h' := h' ^ (rest[0] as bv32);
  }

  lemma NextWord(data: Bytes, seed: bv32, n: nat, h: bv32, d: Bytes)
    requires 4 * n + 4 <= |data| && d == data[4 * n..] && h == AfterWords(data, seed, n)
    ensures AfterWords(data, seed, n + 1) == Block(h, LittleEndian(d[..4])) && d[4..] == data[4 * (n + 1)..]
  {
    assert data[4 * n..][..4] == data[4 * n..4 * (n + 1)];
  }

  method MixWords(data: Bytes, seed: bv32) returns (h: bv32, d: Bytes)
    ensures h == AfterWords(data, seed, |data| / 4) && d == data[4 * (|data| / 4)..]
  {
    h := seed ^ Length32(|data|);
    d := data;
    ghost var n := 0;
    while |d| >= 4
      invariant 4 * n <= |data| && d == data[4 * n..] && h == AfterWords(data, seed, n)
    {
      NextWord(data, seed, n, h, d);
      h := Block(h, LittleEndian(d[..4]));
      d := d[4..];
      n := n + 1;
    }
    assert n == |data| / 4;
  }

  method MixRest(h: bv32, rest: Bytes) returns (h': bv32)
    requires |rest| <= 3
    ensures h' == Tail(h, rest)
  {
    h' := h;
    if |rest| > 0 {
      h' := MixTail(h, rest);
      h' := Times(h');
    }
  }

  // The loop shortens the data from the front; the rest is mixed in byte by byte.
  method Murmur2(data: Bytes, seed: bv32) returns (h: bv32)
    ensures h == Murmur2Of(data, seed)
  {
    var d;
    h, d := MixWords(data, seed);
    h := MixRest(h, d);
    h := Finalize(h);
  }

  lemma OneWord()
    ensures Block(5, 0x6463_6261) == 0x27ec_369e && Finalize(0x27ec_369e) == 0xc93f_7a16
  {
    assert Scramble(0x6463_6261) == 0xecf5_b977;
  }

  lemma FourLetters(letters: Bytes)
    requires letters == [97, 98, 99, 100]
    ensures LittleEndian(letters[0..4]) == 0x6463_6261 && letters[4..] == []
  {
    assert letters[0..4] == letters;
    assert ByteAt(letters, 0) == 97 && ByteAt(letters, 1) == 98 && ByteAt(letters, 2) == 99
        && ByteAt(letters, 3) == 100;
  }

  lemma AfterOneWord(letters: Bytes)
    requires letters == [97, 98, 99, 100]
    ensures AfterWords(letters, 1, 1) == 0x27ec_369e
  {
    FourLetters(letters);
    OneWord();
    assert AfterWords(letters, 1, 0) == 5;
  }

  // No data, and one word ("abcd").
  lemma HashOfNothing()
    ensures Murmur2Of([], 1) == 0x5bd1_5e36
  {
  }

  lemma HashOfOneWord()
    ensures Murmur2Of([97, 98, 99, 100], 1) == 0xc93f_7a16
  {
    var letters: Bytes := [97, 98, 99, 100];
    FourLetters(letters);
    AfterOneWord(letters);
    OneWord();
  }

  // ---- the content, read piece by piece --------------------------------------------------------

  predicate WhiteSpace(b: bv8) {
    b == 9 || b == 10 || b == 13 || b == 32
  }

  function Stripped(bytes: Bytes): Bytes {
    if bytes == [] then []
    else Stripped(bytes[..|bytes| - 1]) + if WhiteSpace(bytes[|bytes| - 1]) then [] else [bytes[|bytes| - 1]]
  }

  function Concat(pieces: seq<Bytes>): Bytes {
    if pieces == [] then [] else Concat(pieces[..|pieces| - 1]) + pieces[|pieces| - 1]
  }

  datatype Hashes = Hashes(sha1: string, sha512: string, fingerprint: bv32)

  function Fingerprint(content: Bytes): bv32 {
    Murmur2Of(Stripped(content), 1)
  }

  lemma {:induction false} StrippedOfConcat(a: Bytes, b: Bytes)
    ensures Stripped(a + b) == Stripped(a) + Stripped(b)
  {
    if b == [] {
      assert a + b == a;
    } else {
      var n := |b| - 1;
      assert (a + b)[..|a + b| - 1] == a + b[..n];
      StrippedOfConcat(a, b[..n]);
    }
  }

  // The places of the bytes that are kept.
  function Places(bytes: Bytes): (at: seq<nat>)
    ensures forall i {:trigger at[i]} :: 0 <= i < |at| ==> at[i] < |bytes|
  {
    if bytes == [] then []
    else Places(bytes[..|bytes| - 1]) + if WhiteSpace(bytes[|bytes| - 1]) then [] else [|bytes| - 1]
  }

  lemma {:induction false} PlacesAreInOrder(bytes: Bytes, i: nat, j: nat)
    requires i < j < |Places(bytes)|
    ensures Places(bytes)[i] < Places(bytes)[j]
  {
    var before := Places(bytes[..|bytes| - 1]);
    if j < |before| {
      PlacesAreInOrder(bytes[..|bytes| - 1], i, j);
    }
  }

  lemma {:induction false} AllPlacesAreKept(bytes: Bytes)
    ensures |Places(bytes)| == |Stripped(bytes)|
  {
    if bytes != [] {
      AllPlacesAreKept(bytes[..|bytes| - 1]);
    }
  }

  // The byte at each place is kept, in order.
  lemma {:induction false} KeptFromPlaces(bytes: Bytes, i: nat)
    requires i < |Stripped(bytes)|
    ensures |Places(bytes)| == |Stripped(bytes)| && Stripped(bytes)[i] == bytes[Places(bytes)[i]]
  {
    var rest := bytes[..|bytes| - 1];
    AllPlacesAreKept(rest);
    if i < |Stripped(rest)| {
      KeptFromPlaces(rest, i);
    }
  }

  // Exactly the bytes other than tab, line feed, carriage return and space have a place.
  lemma {:induction false} OnlyWhiteSpaceGoes(bytes: Bytes, k: nat)
    requires k < |bytes|
    ensures k in Places(bytes) <==> bytes[k] != 9 && bytes[k] != 10 && bytes[k] != 13 && bytes[k] != 32
  {
    var n := |bytes| - 1;
    if k < n {
      OnlyWhiteSpaceGoes(bytes[..n], k);
    } else {
      assert n !in Places(bytes[..n]);
    }
  }

  lemma {:induction false} WhiteSpaceStripsToNothing(bytes: Bytes)
    requires forall k :: 0 <= k < |bytes| ==> WhiteSpace(bytes[k])
    ensures Stripped(bytes) == []
  {
    if bytes != [] {
      WhiteSpaceStripsToNothing(bytes[..|bytes| - 1]);
    }
  }

  // Tabs, line feeds, carriage returns and spaces may be put in or taken out anywhere.
  lemma WhiteSpaceDoesNotMatter(a: Bytes, space: Bytes, b: Bytes)
    requires forall k :: 0 <= k < |space| ==> WhiteSpace(space[k])
    ensures Fingerprint(a + space + b) == Fingerprint(a + b)
  {
    StrippedOfConcat(a + space, b);
    StrippedOfConcat(a, space);
    WhiteSpaceStripsToNothing(space);
    StrippedOfConcat(a, b);
    assert Stripped(a + space + b) == Stripped(a + b) by {
      assert Stripped(a) + [] == Stripped(a);
    }
  }

  method StripInto(stripped: Bytes, chunk: Bytes) returns (r: Bytes)
    ensures r == stripped + Stripped(chunk)
  {
    r := stripped;
    for k := 0 to |chunk|
      invariant r == stripped + Stripped(chunk[..k])
    {
      assert chunk[..k + 1][..k] == chunk[..k];
      var b := chunk[k];
      if b != 9 && b != 10 && b != 13 && b != 32 {
        r := r + [b];
      }
    }
    assert chunk[..|chunk|] == chunk;
  }

  // The hashes and the size depend on the content alone, not on how it was cut into reads.
  method HashReads(chunks: seq<Bytes>, fails: bool, sha1: Bytes -> string, sha512: Bytes -> string)
    returns (r: Option<Hashes>, size: nat)
    ensures size == |Concat(chunks)|
    ensures fails ==> r.None?
    ensures !fails ==> r == Some(Hashes(sha1(Concat(chunks)), sha512(Concat(chunks)), Fingerprint(Concat(chunks))))
  {
    var s1, s5, stripped: Bytes := [], [], [];
    size := 0;
    for i := 0 to |chunks|
      invariant s1 == Concat(chunks[..i]) && s5 == s1 && size == |s1| && stripped == Stripped(s1)
    {
      assert chunks[..i + 1][..i] == chunks[..i];
      var chunk := chunks[i];
      if |chunk| > 0 {
        StrippedOfConcat(s1, chunk);
        s1 := s1 + chunk;
        s5 := s5 + chunk;
        size := size + |chunk|;
        stripped := StripInto(stripped, chunk);
      }
    }
    assert chunks[..|chunks|] == chunks;
    if fails {
      return None, size;
    }
    var fingerprint := Murmur2(stripped, 1);
    r := Some(Hashes(sha1(s1), sha512(s5), fingerprint));
  }
}
