// Base64 and the nonce of a challenge: what the S-CSCF sends out and what it
// accepts back. Bytes are numbers below 256; shifts and masks of disjoint
// bit fields are written as products, sums, quotients and remainders.

module AuthManager {

  type Byte = n: int | 0 <= n < 256

  type Sextet = n: int | 0 <= n < 64

  // ---------- One group ----------

  function CharOf(x: Sextet): char {
    if x < 26 then 'A' + x as char
    else if x < 52 then 'a' + (x - 26) as char
    else if x < 62 then '0' + (x - 52) as char
    else if x == 62 then '+' else '/'
  }

  /** Characters outside the alphabet, the padding among them, count as 0. */
  function ValueOf(c: char): Sextet {
    if 'A' <= c <= 'Z' then c as int - 'A' as int
    else if 'a' <= c <= 'z' then c as int - 'a' as int + 26
    else if '0' <= c <= '9' then c as int - '0' as int + 52
    else if c == '+' then 62
    else if c == '/' then 63
    else 0
  }

  /** The 24 bits of a group that starts at i; missing bytes are 0. */
  function Packed(d: seq<Byte>, i: nat): (n: nat)
    requires i < |d|
    ensures n < 0x100_0000
  {
    d[i] as int * 0x1_0000 + (if i + 1 < |d| then d[i + 1] as int * 0x100 else 0) + (if i + 2 < |d| then d[i + 2] else 0)
  }

  function GroupAt(d: seq<Byte>, i: nat): string
    requires i < |d|
  {
    var n := Packed(d, i);
    [CharOf(n / 0x4_0000 % 64), CharOf(n / 0x1000 % 64),
     if i + 1 < |d| then CharOf(n / 64 % 64) else '=',
     if i + 2 < |d| then CharOf(n % 64) else '=']
  }

  function BytesAt(s: string, i: nat): seq<Byte>
    requires i + 3 < |s|
  {
    var n := ValueOf(s[i]) * 0x4_0000 + ValueOf(s[i + 1]) * 0x1000 + ValueOf(s[i + 2]) * 64 + ValueOf(s[i + 3]);
    [n / 0x1_0000 % 256]
    + (if s[i + 2] != '=' then [n / 0x100 % 256] else [])
    + (if s[i + 3] != '=' then [n % 256] else [])
  }

  // ---------- Whole strings ----------

  function EncodedFrom(d: seq<Byte>, i: nat): string
    decreases |d| - i
  {
    if i >= |d| then "" else GroupAt(d, i) + EncodedFrom(d, i + 3)
  }

  function DecodedFrom(s: string, i: nat): seq<Byte>
    decreases |s| - i
  {
    if i + 3 >= |s| then [] else BytesAt(s, i) + DecodedFrom(s, i + 4)
  }

  function Encoded(d: seq<Byte>): string { EncodedFrom(d, 0) }

  function Decoded(s: string): seq<Byte> { DecodedFrom(s, 0) }

  method Base64Encode(data: seq<Byte>) returns (result: string)
    ensures result == Encoded(data)
  {
    hide GroupAt;
    result := "";
    var i := 0;
    while i < |data|
      invariant result + EncodedFrom(data, i) == Encoded(data)
      decreases |data| - i
    {
      var group := EncodeGroup(data, i);
      assert result + (group + EncodedFrom(data, i + 3)) == (result + group) + EncodedFrom(data, i + 3);
      result := result + group;
      i := i + 3;
    }
    assert result + "" == result;
  }

  /** The body of the loop above. */
  method EncodeGroup(data: seq<Byte>, i: nat) returns (group: string)
    requires i < |data|
    ensures group == GroupAt(data, i)
  {
    hide CharOf;
    var n := data[i] as int * 0x1_0000;
    if i + 1 < |data| { n := n + data[i + 1] as int * 0x100; }
    if i + 2 < |data| { n := n + data[i + 2]; }
    assert n == Packed(data, i);
    group := [CharOf(n / 0x4_0000 % 64), CharOf(n / 0x1000 % 64)];
    group := group + [if i + 1 < |data| then CharOf(n / 64 % 64) else '='];
    group := group + [if i + 2 < |data| then CharOf(n % 64) else '='];
  }

  method Base64Decode(encoded: string) returns (result: seq<Byte>)
    ensures result == Decoded(encoded)
  {
    hide BytesAt;
    result := [];
    var i := 0;
    while i < |encoded|
      invariant result + DecodedFrom(encoded, i) == Decoded(encoded)
      decreases |encoded| - i
    {
      if i + 3 >= |encoded| { break; }
      var bytes := DecodeGroup(encoded, i);
      assert result + (bytes + DecodedFrom(encoded, i + 4)) == (result + bytes) + DecodedFrom(encoded, i + 4);
      result := result + bytes;
      i := i + 4;
    }
    assert result + [] == result;
  }

  method DecodeGroup(encoded: string, i: nat) returns (bytes: seq<Byte>)
    requires i + 3 < |encoded|
    ensures bytes == BytesAt(encoded, i)
  {
    hide ValueOf;
    var n := ValueOf(encoded[i]) * 0x4_0000 + ValueOf(encoded[i + 1]) * 0x1000
             + ValueOf(encoded[i + 2]) * 64 + ValueOf(encoded[i + 3]);
    bytes := [n / 0x1_0000 % 256];
    if encoded[i + 2] != '=' { bytes := bytes + [n / 0x100 % 256]; }
    if encoded[i + 3] != '=' { bytes := bytes + [n % 256]; }
  }

  // ---------- Decoding undoes encoding ----------

  lemma AlphabetRoundTrips(x: Sextet)
    ensures ValueOf(CharOf(x)) == x && CharOf(x) != '='
  {
  }

  /** The four sextets of 24 bits give the bits back. */
  lemma SextetsRebuild(n: nat)
    requires n < 0x100_0000
    ensures n / 0x4_0000 % 64 * 0x4_0000 + n / 0x1000 % 64 * 0x1000 + n / 64 % 64 * 64 + n % 64 == n
  {
    var a, b, c := n / 64, n / 64 / 64, n / 64 / 64 / 64;
    assert a == 64 * b + a % 64 && b == 64 * c + b % 64;
    assert n / 0x1000 == b && n / 0x4_0000 == c;
  }

  lemma BytesRebuild(a: Byte, b: Byte, c: Byte)
    ensures var n := a * 0x1_0000 + b * 0x100 + c; n / 0x1_0000 % 256 == a && n / 0x100 % 256 == b && n % 256 == c
  {
  }

  /** The characters of a group carry its 24 bits. */
  lemma GroupCarries(d: seq<Byte>, i: nat)
    requires i < |d|
    ensures var g := GroupAt(d, i);
            && |g| == 4
            && ValueOf(g[0]) * 0x4_0000 + ValueOf(g[1]) * 0x1000 + ValueOf(g[2]) * 64 + ValueOf(g[3]) == Packed(d, i)
            && (g[2] == '=' <==> i + 1 >= |d|) && (g[3] == '=' <==> i + 2 >= |d|)
  {
    hide CharOf, ValueOf, Packed;
    var n := Packed(d, i);
    AlphabetRoundTrips(n / 0x4_0000 % 64);
    AlphabetRoundTrips(n / 0x1000 % 64);
    AlphabetRoundTrips(n / 64 % 64);
    AlphabetRoundTrips(n % 64);
    PaddingIsZero();
    SextetsRebuild(n);
    MissingBitsAreZero(d, i);
  }

  /** A group followed by anything decodes to its own one, two or three bytes. */
  lemma GroupRoundTrips(d: seq<Byte>, i: nat, s: string, j: nat)
    requires i < |d| && j + 3 < |s| && s[j..j + 4] == GroupAt(d, i)
    ensures BytesAt(s, j) == d[i..if i + 3 <= |d| then i + 3 else |d|]
  {
    hide ValueOf, GroupAt;
    var g := s[j..j + 4];
    assert s[j] == g[0] && s[j + 1] == g[1] && s[j + 2] == g[2] && s[j + 3] == g[3];
    GroupCarries(d, i);
    BytesRebuild(d[i], if i + 1 < |d| then d[i + 1] else 0, if i + 2 < |d| then d[i + 2] else 0);
  }

  lemma PaddingIsZero()
    ensures ValueOf('=') == 0
  {
  }

  lemma MissingBitsAreZero(d: seq<Byte>, i: nat)
    requires i < |d|
    ensures i + 2 >= |d| ==> Packed(d, i) % 64 == 0
    ensures i + 1 >= |d| ==> Packed(d, i) / 64 % 64 == 0
  {
  }

  lemma {:induction false} EncodedLength(d: seq<Byte>, i: nat)
    ensures |EncodedFrom(d, i)| == if i >= |d| then 0 else (|d| - i + 2) / 3 * 4
    decreases |d| - i
  {
    hide GroupAt, Packed, CharOf;
    if i < |d| {
      EncodedLength(d, i + 3);
      GroupHasFour(d, i);
    }
  }

  lemma GroupHasFour(d: seq<Byte>, i: nat)
    requires i < |d|
    ensures |GroupAt(d, i)| == 4
  {
  }

  lemma {:induction false} SuffixRoundTrips(d: seq<Byte>, i: nat, s: string, j: nat)
    requires j <= |s| && s[j..] == EncodedFrom(d, i)
    ensures DecodedFrom(s, j) == if i >= |d| then [] else d[i..]
    decreases |d| - i
  {
    hide GroupAt, BytesAt;
    if i < |d| {
      GroupHasFour(d, i);
      var t := s[j..];
      assert t == GroupAt(d, i) + EncodedFrom(d, i + 3);
      assert s[j..j + 4] == t[..4] && s[j + 4..] == t[4..];
      GroupRoundTrips(d, i, s, j);
      SuffixRoundTrips(d, i + 3, s, j + 4);
    }
  }

  lemma DecodeUndoesEncode(d: seq<Byte>)
    ensures Decoded(Encoded(d)) == d
    ensures |Encoded(d)| == (|d| + 2) / 3 * 4
  {
    var s := Encoded(d);
    assert s[0..] == s;
    SuffixRoundTrips(d, 0, s, 0);
    EncodedLength(d, 0);
    if d == [] { assert s == ""; }
  }

  lemma EncodingIsInjective(a: seq<Byte>, b: seq<Byte>)
    ensures Encoded(a) == Encoded(b) <==> a == b
  {
    DecodeUndoesEncode(a);
    DecodeUndoesEncode(b);
  }

  /** The alphabet of RFC 4648, table 1, eight characters a clause. */
  lemma AlphabetIsStandard(x: Sextet)
    ensures x < 8 ==> CharOf(x) == "ABCDEFGH"[x]
    ensures 8 <= x < 16 ==> CharOf(x) == "IJKLMNOP"[x - 8]
    ensures 16 <= x < 24 ==> CharOf(x) == "QRSTUVWX"[x - 16]
    ensures 24 <= x < 32 ==> CharOf(x) == "YZabcdef"[x - 24]
    ensures 32 <= x < 40 ==> CharOf(x) == "ghijklmn"[x - 32]
    ensures 40 <= x < 48 ==> CharOf(x) == "opqrstuv"[x - 40]
    ensures 48 <= x < 56 ==> CharOf(x) == "wxyz0123"[x - 48]
    ensures 56 <= x ==> CharOf(x) == "456789+/"[x - 56]
  {
  }

  /** A full group carries its bytes most significant bit first: six, two and four, four and two, six. */
  lemma FullGroupIsStandard(a: Byte, b: Byte, c: Byte)
    ensures GroupAt([a, b, c], 0) == [CharOf(a / 4), CharOf(a % 4 * 16 + b / 16), CharOf(b % 16 * 4 + c / 64), CharOf(c % 64)]
  {
    hide CharOf;
    SextetsOfBytes(a, b, c);
  }

  /** One or two bytes left over are padded with zero bits and one or two padding characters. */
  lemma LastGroupIsStandard(a: Byte, b: Byte)
    ensures GroupAt([a], 0) == [CharOf(a / 4), CharOf(a % 4 * 16), '=', '=']
    ensures GroupAt([a, b], 0) == [CharOf(a / 4), CharOf(a % 4 * 16 + b / 16), CharOf(b % 16 * 4), '=']
  {
    hide CharOf;
    SextetsOfBytes(a, 0, 0);
    SextetsOfBytes(a, b, 0);
  }

  lemma SextetsOfBytes(a: Byte, b: Byte, c: Byte)
    ensures var n := a as int * 0x1_0000 + b as int * 0x100 + c;
            n / 0x4_0000 % 64 == a / 4 && n / 0x1000 % 64 == a % 4 * 16 + b / 16 && n / 64 % 64 == b % 16 * 4 + c / 64 && n % 64 == c % 64
  {
    var n := a as int * 0x1_0000 + b as int * 0x100 + c;
    var w, x, y, z := a / 4, a % 4 * 16 + b / 16, b % 16 * 4 + c / 64, c % 64;
    assert n == ((w * 64 + x) * 64 + y) * 64 + z;
    SextetsApart(w, x, y, z);
  }

  lemma SextetsApart(w: Sextet, x: Sextet, y: Sextet, z: Sextet)
    ensures var n := ((w * 64 + x) * 64 + y) * 64 + z;
            n / 0x4_0000 % 64 == w && n / 0x1000 % 64 == x && n / 64 % 64 == y && n % 64 == z
  {
  }

  /** A group depends on its own bytes only. */
  lemma GroupIsLocal(before: seq<Byte>, group: seq<Byte>, after: seq<Byte>)
    requires |group| == 3
    ensures GroupAt(before + group + after, |before|) == GroupAt(group, 0)
  {
    hide CharOf;
    var d := before + group + after;
    assert forall j | 0 <= j < 3 :: d[|before| + j] == group[j];
  }

  lemma GroupsOfFoobar()
    ensures GroupAt([0x66, 0x6f, 0x6f], 0) == "Zm9v" && GroupAt([0x62, 0x61, 0x72], 0) == "YmFy"
    ensures GroupAt([0x66], 0) == "Zg==" && GroupAt([0x66, 0x6f], 0) == "Zm8="
  {
    hide GroupAt;
    FullGroupIsStandard(0x66, 0x6f, 0x6f);
    FullGroupIsStandard(0x62, 0x61, 0x72);
    LastGroupIsStandard(0x66, 0x6f);
  }

  /** Four of the test vectors of RFC 4648, section 10: "foobar", "f", "fo" and the empty string. */
  lemma Foobar()
    ensures Encoded([0x66, 0x6f, 0x6f, 0x62, 0x61, 0x72]) == "Zm9vYmFy"
    ensures Encoded([0x66]) == "Zg==" && Encoded([0x66, 0x6f]) == "Zm8=" && Encoded([]) == ""
  {
    hide GroupAt;
    var foo: seq<Byte>, bar: seq<Byte> := [0x66, 0x6f, 0x6f], [0x62, 0x61, 0x72];
    GroupsOfFoobar();
    TwoGroups(foo, bar);
    assert foo + bar == [0x66, 0x6f, 0x6f, 0x62, 0x61, 0x72];
    LoneGroup([0x66]);
    LoneGroup([0x66, 0x6f]);
  }

  lemma LoneGroup(d: seq<Byte>)
    requires 0 < |d| <= 3
    ensures Encoded(d) == GroupAt(d, 0)
  {
    hide GroupAt;
    assert EncodedFrom(d, 3) == "";
  }

  lemma TwoGroups(a: seq<Byte>, b: seq<Byte>)
    requires |a| == |b| == 3
    ensures Encoded(a + b) == GroupAt(a, 0) + GroupAt(b, 0)
  {
    hide GroupAt;
    var d := a + b;
    GroupIsLocal([], a, b);
    GroupIsLocal(a, b, []);
    assert [] + a + b == d == a + b + [];
    assert EncodedFrom(d, 6) == "" && EncodedFrom(d, 3) == GroupAt(b, 0);
  }

  // ---------- Nonces ----------

  /** The parts of an authentication vector that a nonce is made of. */
  datatype Vector = Vector(rand: seq<Byte>, autn: seq<Byte>)

  /** Every scheme but Digest-MD5 is challenged as AKA. */
  function ChallengeNonce(v: Vector, scheme: string): string {
    if scheme == "Digest-MD5" then Encoded(v.rand) else Encoded(v.rand + v.autn)
  }

  method BuildNonce(v: Vector, scheme: string) returns (nonce: string)
    ensures nonce == ChallengeNonce(v, scheme)
  {
    if scheme == "Digest-MD5" {
      nonce := Base64Encode(v.rand);
      return;
    }
    var nonceData: seq<Byte> := [];
    nonceData := nonceData + v.rand;
    nonceData := nonceData + v.autn;
    assert nonceData == v.rand + v.autn;
    nonce := Base64Encode(nonceData);
  }

  predicate Supported(scheme: string) {
    scheme == "Digest-MD5" || scheme == "AKAv1-MD5" || scheme == "Digest-AKAv1-MD5"
  }

  /** The checks of verifyResponse up to the digest: an empty nonce and an unknown scheme are refused. */
  predicate NonceAccepted(nonce: string, v: Vector, scheme: string) {
    nonce != "" && Supported(scheme) && nonce == ChallengeNonce(v, scheme)
  }

  method CheckNonce(nonce: string, v: Vector, scheme: string) returns (accepted: bool)
    ensures accepted == NonceAccepted(nonce, v, scheme)
  {
    if nonce == "" {
      return false;
    }
    var expected: string;
    if scheme == "Digest-MD5" {
      expected := Base64Encode(v.rand);
    } else if scheme == "AKAv1-MD5" || scheme == "Digest-AKAv1-MD5" {
      expected := Base64Encode(v.rand + v.autn);
    } else {
      return false;
    }
    return nonce == expected;
  }

  /** What a challenge commits to under a scheme. */
  function Material(v: Vector, scheme: string): seq<Byte> {
    if scheme == "Digest-MD5" then v.rand else v.rand + v.autn
  }

  /** The nonce of one vector's challenge is accepted against another exactly when their material is the same bytes. */
  lemma NonceMatchesExactly(v: Vector, w: Vector, scheme: string)
    ensures NonceAccepted(ChallengeNonce(v, scheme), w, scheme)
            <==> Supported(scheme) && Material(v, scheme) == Material(w, scheme) && Material(v, scheme) != []
  {
    hide Encoded;
    EncodingIsInjective(Material(v, scheme), Material(w, scheme));
    DecodeUndoesEncode(Material(v, scheme));
    assert Encoded(Material(v, scheme)) == "" <==> Material(v, scheme) == [];
  }

  /** With the 16-byte RAND and AUTN of AKA that means the same RAND and the same AUTN. */
  lemma AkaNonceNamesTheVector(v: Vector, w: Vector, scheme: string)
    requires scheme == "AKAv1-MD5" || scheme == "Digest-AKAv1-MD5"
    requires |v.rand| == |w.rand| == 16 && |v.autn| == |w.autn| == 16
    ensures NonceAccepted(ChallengeNonce(v, scheme), w, scheme) <==> v == w
  {
    hide Encoded, ChallengeNonce, NonceAccepted;
    NonceMatchesExactly(v, w, scheme);
    if Material(v, scheme) == Material(w, scheme) {
      assert v.rand == (v.rand + v.autn)[..16] && w.rand == (w.rand + w.autn)[..16];
      assert v.autn == (v.rand + v.autn)[16..] && w.autn == (w.rand + w.autn)[16..];
    }
  }

  /** Without that the boundary between the two is lost: different vectors can share a nonce. */
  lemma UnequalVectorsCanShareANonce()
    ensures var v, w := Vector([1], [2, 3]), Vector([1, 2], [3]);
            v != w && NonceAccepted(ChallengeNonce(v, "AKAv1-MD5"), w, "AKAv1-MD5")
  {
    hide Encoded;
    var v, w := Vector([1], [2, 3]), Vector([1, 2], [3]);
    assert v.rand != w.rand;
    assert v.rand + v.autn == [1, 2, 3] == w.rand + w.autn;
    NonceMatchesExactly(v, w, "AKAv1-MD5");
  }

  /** An AKA nonce is the text of RAND followed by AUTN, a digest nonce that of RAND alone. */
  lemma NonceCarries(v: Vector, scheme: string)
    ensures Decoded(ChallengeNonce(v, scheme)) == if scheme == "Digest-MD5" then v.rand else v.rand + v.autn
  {
    hide Encoded, Decoded;
    DecodeUndoesEncode(v.rand);
    DecodeUndoesEncode(v.rand + v.autn);
  }

  /** AKA under either of its names and Digest-MD5 are answered; any other scheme is challenged and never accepted. */
  lemma SchemesAnswered(v: Vector, nonce: string, scheme: string)
    ensures NonceAccepted(nonce, v, scheme) ==> scheme in {"Digest-MD5", "AKAv1-MD5", "Digest-AKAv1-MD5"}
    ensures v.rand != [] && scheme in {"Digest-MD5", "AKAv1-MD5", "Digest-AKAv1-MD5"} ==> NonceAccepted(ChallengeNonce(v, scheme), v, scheme)
  {
    hide Encoded;
    NonceMatchesExactly(v, v, scheme);
  }
}
