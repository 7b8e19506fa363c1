// The authentication and key agreement functions: 3GPP TS 35.206 section 4.1
// as functions, and what holds of their outputs for every key.

module Milenage {
  import opened GaloisField
  import opened Aes

  function Xor(a: seq<bv8>, b: seq<bv8>): (r: seq<bv8>)
    requires |a| == |b|
    ensures |r| == |a|
  {
    seq(|a|, i requires 0 <= i < |a| => Add(a[i], b[i]))
  }

  /** Cyclic rotation by n bytes towards the first byte; the standard counts bits. */
  function Rot(x: Block, n: nat): Block {
    seq(16, i requires 0 <= i < 16 => x[(i + n) % 16])
  }

  /** A constant c_i: zero but for its last byte. */
  function LastByte(c: bv8): Block {
    seq(15, _ => 0) + [c]
  }

  /** The kernel E[.]_K under a fixed key; the functions are defined over any kernel. */
  type Kernel = Block -> Block

  function KernelOf(k: Block): Kernel { x => Encrypt(k, x) }

  ghost predicate Injective(e: Kernel) {
    forall a: Block, b: Block {:trigger e(a), e(b)} :: e(a) == e(b) ==> a == b
  }

  function Temp(e: Kernel, opc: Block, rand: Block): Block {
    e(Xor(rand, opc))
  }

  /** SQN || AMF || SQN || AMF. */
  function In1(sqn: seq<bv8>, amf: seq<bv8>): Block
    requires |sqn| == 6 && |amf| == 2
  {
    sqn + amf + sqn + amf
  }

  function Out1(e: Kernel, opc: Block, rand: Block, sqn: seq<bv8>, amf: seq<bv8>): Block
    requires |sqn| == 6 && |amf| == 2
  {
    Xor(e(Xor(Rot(Xor(In1(sqn, amf), opc), 8), Temp(e, opc, rand))), opc)
  }

  /** The common shape of OUT2 to OUT5: rotation by n bytes, constant c. */
  function Out(e: Kernel, opc: Block, rand: Block, n: nat, c: bv8): Block {
    OutFrom(e, opc, Temp(e, opc, rand), n, c)
  }

  function OutFrom(e: Kernel, opc: Block, temp: Block, n: nat, c: bv8): Block {
    Xor(e(Xor(Rot(Xor(temp, opc), n), LastByte(c))), opc)
  }

  function Out2(e: Kernel, opc: Block, rand: Block): Block { Out(e, opc, rand, 0, 1) }
  function Out3(e: Kernel, opc: Block, rand: Block): Block { Out(e, opc, rand, 4, 2) }
  function Out4(e: Kernel, opc: Block, rand: Block): Block { Out(e, opc, rand, 8, 4) }
  function Out5(e: Kernel, opc: Block, rand: Block): Block { Out(e, opc, rand, 12, 8) }

  /** OPc is derived from OP and K. */
  function Opc(e: Kernel, op: Block): Block { Xor(e(op), op) }

  datatype Vector = Vector(autn: seq<bv8>, ck: seq<bv8>, ik: seq<bv8>, ak: seq<bv8>, xres: seq<bv8>)

  /** The vector the home network builds: AUTN is SQN xor AK, AMF and MAC-A. */
  function VectorOf(e: Kernel, opc: Block, sqn: seq<bv8>, amf: seq<bv8>, rand: Block): Vector
    requires |sqn| == 6 && |amf| == 2
  {
    var out2 := Out2(e, opc, rand);
    Vector(Xor(sqn, out2[..6]) + amf + Out1(e, opc, rand, sqn, amf)[..8], Out3(e, opc, rand), Out4(e, opc, rand), out2[..6], out2[8..])
  }

  // ---------- Blocks under xor and rotation ----------

  lemma XorIsInjective(a: seq<bv8>, b: seq<bv8>, k: seq<bv8>)
    requires |a| == |b| == |k|
    ensures Xor(a, k) == Xor(b, k) <==> a == b
    ensures Xor(k, a) == Xor(k, b) <==> a == b
    ensures Xor(Xor(a, k), k) == a
  {
    hide GaloisField.Add;
    forall i | 0 <= i < |a| ensures Add(Add(a[i], k[i]), k[i]) == a[i] && Add(Add(b[i], k[i]), k[i]) == b[i] {
      AddCancelsRight(a[i], k[i]);
      AddCancelsRight(b[i], k[i]);
    }
    forall i | 0 <= i < |a| ensures Add(k[i], a[i]) == Add(a[i], k[i]) && Add(k[i], b[i]) == Add(b[i], k[i]) {
      AddCommutes(k[i], a[i]);
      AddCommutes(k[i], b[i]);
    }
    if Xor(a, k) == Xor(b, k) {
      forall i | 0 <= i < |a| ensures a[i] == b[i] {
        assert Xor(a, k)[i] == Xor(b, k)[i];
      }
    }
    if Xor(k, a) == Xor(k, b) {
      forall i | 0 <= i < |a| ensures a[i] == b[i] {
        assert Xor(k, a)[i] == Xor(k, b)[i];
      }
    }
  }

  lemma RotIsInjective(a: Block, b: Block, n: nat)
    requires n < 16
    ensures Rot(a, n) == Rot(b, n) <==> a == b
  {
    if Rot(a, n) == Rot(b, n) {
      forall i | 0 <= i < 16 ensures a[i] == b[i] {
        var j := (i + 16 - n) % 16;
        assert (j + n) % 16 == i;
        assert Rot(a, n)[j] == Rot(b, n)[j];
      }
    }
  }

  /** The sum of the bytes whose index is 3 mod 4, where the constants sit. */
  function ClassSum(b: Block): bv8 { Sum4(b[3], b[7], b[11], b[15]) }

  /** Rotations by whole words permute a byte class cyclically. */
  lemma RotKeepsClassSum(b: Block, n: nat)
    requires n == 0 || n == 4 || n == 8 || n == 12
    ensures ClassSum(Rot(b, n)) == ClassSum(b)
  {
    hide GaloisField.Add, GaloisField.Sum4;
    Sum4Rotates(b[3], b[7], b[11], b[15]);
    Sum4Rotates(b[7], b[11], b[15], b[3]);
    Sum4Rotates(b[11], b[15], b[3], b[7]);
  }

  lemma XorLastByteMovesClassSum(b: Block, c: bv8)
    ensures ClassSum(Xor(b, LastByte(c))) == Add(ClassSum(b), c)
  {
    hide GaloisField.Add;
    AddZero(b[3]);
    AddZero(b[7]);
    AddZero(b[11]);
    AddAssociates(b[11], b[15], c);
    AddAssociates(Add(b[3], b[7]), Add(b[11], b[15]), c);
  }

  lemma AddZero(a: bv8)
    ensures Add(a, 0) == a
  {}

  lemma AddSeparates(s: bv8, c: bv8, d: bv8)
    requires c != d
    ensures Add(s, c) != Add(s, d)
  {}

  // ---------- Properties of the outputs ----------

  /** Different constants give different outputs, whatever the word rotations are. */
  lemma OutsDiffer(e: Kernel, opc: Block, rand: Block, m: nat, c: bv8, n: nat, d: bv8)
    requires Injective(e)
    requires m % 4 == n % 4 == 0 && m < 16 && n < 16 && c != d
    ensures Out(e, opc, rand, m, c) != Out(e, opc, rand, n, d)
  {
    hide GaloisField.Add, ClassSum, Xor, Rot, LastByte;
    var x := Xor(Temp(e, opc, rand), opc);
    var a, b := Xor(Rot(x, m), LastByte(c)), Xor(Rot(x, n), LastByte(d));
    RotKeepsClassSum(x, m);
    RotKeepsClassSum(x, n);
    XorLastByteMovesClassSum(Rot(x, m), c);
    XorLastByteMovesClassSum(Rot(x, n), d);
    AddSeparates(ClassSum(x), c, d);
    XorIsInjective(e(a), e(b), opc);
  }

  /** OUT2 to OUT5 are pairwise distinct, so CK is never IK. */
  lemma OutputBlocksAreDistinct(e: Kernel, opc: Block, rand: Block)
    requires Injective(e)
    ensures Out2(e, opc, rand) != Out3(e, opc, rand) && Out2(e, opc, rand) != Out4(e, opc, rand) && Out2(e, opc, rand) != Out5(e, opc, rand)
    ensures Out3(e, opc, rand) != Out4(e, opc, rand) && Out3(e, opc, rand) != Out5(e, opc, rand) && Out4(e, opc, rand) != Out5(e, opc, rand)
  {
    hide Out;
    OutsDiffer(e, opc, rand, 0, 1, 4, 2);
    OutsDiffer(e, opc, rand, 0, 1, 8, 4);
    OutsDiffer(e, opc, rand, 0, 1, 12, 8);
    OutsDiffer(e, opc, rand, 4, 2, 8, 4);
    OutsDiffer(e, opc, rand, 4, 2, 12, 8);
    OutsDiffer(e, opc, rand, 8, 4, 12, 8);
  }

  /** MAC-A and MAC-S, the halves of OUT1, together determine SQN and AMF. */
  lemma MacsDetermineSqnAndAmf(e: Kernel, opc: Block, rand: Block, sqn: seq<bv8>, amf: seq<bv8>, sqn': seq<bv8>, amf': seq<bv8>)
    requires Injective(e)
    requires |sqn| == |sqn'| == 6 && |amf| == |amf'| == 2
    ensures Out1(e, opc, rand, sqn, amf) == Out1(e, opc, rand, sqn', amf') <==> sqn == sqn' && amf == amf'
  {
    hide GaloisField.Add, Xor, Rot;
    var a, b := Xor(In1(sqn, amf), opc), Xor(In1(sqn', amf'), opc);
    var t := Temp(e, opc, rand);
    var p, q := Xor(Rot(a, 8), t), Xor(Rot(b, 8), t);
    if Out1(e, opc, rand, sqn, amf) == Out1(e, opc, rand, sqn', amf') {
      XorIsInjective(e(p), e(q), opc);
      XorIsInjective(Rot(a, 8), Rot(b, 8), t);
      RotIsInjective(a, b, 8);
      XorIsInjective(In1(sqn, amf), In1(sqn', amf'), opc);
      assert sqn == In1(sqn, amf)[..6] && amf == In1(sqn, amf)[6..8];
      assert sqn' == In1(sqn', amf')[..6] && amf' == In1(sqn', amf')[6..8];
    }
  }

  /** What the receiver does with AUTN: unmask SQN with its own AK, read AMF, recompute MAC-A. */
  function ReceivedSqn(e: Kernel, opc: Block, rand: Block, autn: Block): (sqn: seq<bv8>)
    ensures |sqn| == 6
  {
    Xor(autn[..6], Out2(e, opc, rand)[..6])
  }

  predicate MacMatches(e: Kernel, opc: Block, rand: Block, autn: Block) {
    autn[8..] == Out1(e, opc, rand, ReceivedSqn(e, opc, rand, autn), autn[6..8])[..8]
  }

  lemma Slices<T>(x: seq<T>, y: seq<T>, z: seq<T>)
    requires |x| == 6 && |y| == 2 && |z| == 8
    ensures (x + y + z)[..6] == x && (x + y + z)[6..8] == y && (x + y + z)[8..] == z
  {}

  /** The receiver recovers SQN and AMF from AUTN, and the MAC verifies. */
  lemma ReceiverRecoversSqn(e: Kernel, opc: Block, sqn: seq<bv8>, amf: seq<bv8>, rand: Block)
    requires |sqn| == 6 && |amf| == 2
    ensures var autn := VectorOf(e, opc, sqn, amf, rand).autn;
            |autn| == 16 && ReceivedSqn(e, opc, rand, autn) == sqn && autn[6..8] == amf && MacMatches(e, opc, rand, autn)
  {
    hide Out1, Out2, Xor;
    var ak := Out2(e, opc, rand)[..6];
    XorIsInjective(sqn, sqn, ak);
    Slices(Xor(sqn, ak), amf, Out1(e, opc, rand, sqn, amf)[..8]);
  }

  /** For one subscriber, (RAND, AUTN) determines SQN and AMF, so vectors with different SQNs differ in it. */
  lemma RandAndAutnDetermineSqn(e: Kernel, opc: Block, sqn: seq<bv8>, amf: seq<bv8>, sqn': seq<bv8>, amf': seq<bv8>, rand: Block)
    requires |sqn| == |sqn'| == 6 && |amf| == |amf'| == 2
    ensures VectorOf(e, opc, sqn, amf, rand).autn == VectorOf(e, opc, sqn', amf', rand).autn <==> sqn == sqn' && amf == amf'
  {
    hide VectorOf, ReceivedSqn, MacMatches;
    ReceiverRecoversSqn(e, opc, sqn, amf, rand);
    ReceiverRecoversSqn(e, opc, sqn', amf', rand);
  }

  /** AES under any key is a kernel for which the properties above hold. */
  lemma AesKernelIsInjective(k: Block)
    ensures Injective(KernelOf(k))
  {
    hide Encrypt;
    forall a: Block, b: Block | KernelOf(k)(a) == KernelOf(k)(b) ensures a == b {
      EncryptIsInjective(k, a, b);
    }
  }

  /** For every K, OPc and RAND the vector's CK and IK differ. */
  lemma CkIsNotIk(k: Block, opc: Block, sqn: seq<bv8>, amf: seq<bv8>, rand: Block)
    requires |sqn| == 6 && |amf| == 2
    ensures VectorOf(KernelOf(k), opc, sqn, amf, rand).ck != VectorOf(KernelOf(k), opc, sqn, amf, rand).ik
  {
    hide KernelOf, Out, Out1;
    AesKernelIsInjective(k);
    OutputBlocksAreDistinct(KernelOf(k), opc, rand);
  }

  // ---------- Section 4.1 of TS 35.206, byte by byte ----------

  predicate IsSum(z: seq<bv8>, a: seq<bv8>, b: seq<bv8>) {
    |z| == |a| == |b| && forall i | 0 <= i < |z| :: z[i] == Add(a[i], b[i])
  }

  /** rot(TEMP xor OPc, r) xor c, for a rotation by n bytes and a constant with the one byte c. */
  predicate IsInput(x: Block, temp: Block, opc: Block, n: nat, c: bv8) {
    && (forall i | 0 <= i < 15 :: x[i] == Add(temp[(i + n) % 16], opc[(i + n) % 16]))
    && x[15] == Add(Add(temp[(15 + n) % 16], opc[(15 + n) % 16]), c)
  }

  /** TEMP xor rot(IN1 xor OPc, r1), for r1 of 8 bytes; IN1 is SQN || AMF || SQN || AMF. */
  predicate IsInput1(x: Block, temp: Block, opc: Block, sqn: seq<bv8>, amf: seq<bv8>)
    requires |sqn| == 6 && |amf| == 2
  {
    forall i | 0 <= i < 16 ::
      x[i] == Add(Add(if i % 8 < 6 then sqn[i % 8] else amf[i % 8 - 6], opc[(i + 8) % 16]), temp[i])
  }

  lemma OutIsOfItsInput(e: Kernel, opc: Block, rand: Block, n: nat, c: bv8, y: Block, x: Block)
    requires IsSum(y, rand, opc) && IsInput(x, e(y), opc, n, c)
    ensures IsSum(Out(e, opc, rand, n, c), e(x), opc)
  {
    hide GaloisField.Add;
    var temp := e(y);
    assert y == Xor(rand, opc);
    var z := Xor(Rot(Xor(temp, opc), n), LastByte(c));
    forall i | 0 <= i < 16 ensures z[i] == x[i] { AddZero(Add(temp[(i + n) % 16], opc[(i + n) % 16])); }
    assert z == x;
  }

  /**
   * OUT2 to OUT5 with the rotations of 0, 4, 8 and 12 bytes and the constants 1, 2, 4 and 8: RES and AK come from
   * OUT2, CK is OUT3, IK is OUT4, and the AK of a resynchronisation comes from OUT5.
   */
  lemma OutputsAsInTheStandard(e: Kernel, opc: Block, rand: Block, y: Block, x2: Block, x3: Block, x4: Block, x5: Block)
    requires IsSum(y, rand, opc)
    requires IsInput(x2, e(y), opc, 0, 1) && IsInput(x3, e(y), opc, 4, 2) && IsInput(x4, e(y), opc, 8, 4) && IsInput(x5, e(y), opc, 12, 8)
    ensures IsSum(Out2(e, opc, rand), e(x2), opc) && IsSum(Out3(e, opc, rand), e(x3), opc)
    ensures IsSum(Out4(e, opc, rand), e(x4), opc) && IsSum(Out5(e, opc, rand), e(x5), opc)
  {
    hide IsInput, IsSum, Out;
    OutIsOfItsInput(e, opc, rand, 0, 1, y, x2);
    OutIsOfItsInput(e, opc, rand, 4, 2, y, x3);
    OutIsOfItsInput(e, opc, rand, 8, 4, y, x4);
    OutIsOfItsInput(e, opc, rand, 12, 8, y, x5);
  }

  /** OUT1, of which MAC-A is the first half and MAC-S the second. */
  lemma Out1AsInTheStandard(e: Kernel, opc: Block, rand: Block, sqn: seq<bv8>, amf: seq<bv8>, y: Block, x1: Block)
    requires |sqn| == 6 && |amf| == 2 && IsSum(y, rand, opc) && IsInput1(x1, e(y), opc, sqn, amf)
    ensures IsSum(Out1(e, opc, rand, sqn, amf), e(x1), opc)
  {
    hide GaloisField.Add;
    var temp := e(y);
    assert y == Xor(rand, opc);
    var in1 := In1(sqn, amf);
    var z := Xor(Rot(Xor(in1, opc), 8), temp);
    forall i | 0 <= i < 16 ensures z[i] == x1[i] {
      assert in1[(i + 8) % 16] == if i % 8 < 6 then sqn[i % 8] else amf[i % 8 - 6];
    }
    assert z == x1;
  }

  lemma OpcAsInTheStandard(e: Kernel, op: Block)
    ensures IsSum(Opc(e, op), e(op), op)
  {
  }

  /** The vector: RES is the second half of OUT2 and AK its first six bytes, CK is OUT3, IK is OUT4, and AUTN is (SQN xor AK) || AMF || MAC-A. */
  lemma VectorOfItsOutputs(e: Kernel, opc: Block, sqn: seq<bv8>, amf: seq<bv8>, rand: Block)
    requires |sqn| == 6 && |amf| == 2
    ensures var v := VectorOf(e, opc, sqn, amf, rand); var o1, o2 := Out1(e, opc, rand, sqn, amf), Out2(e, opc, rand);
            && |v.xres| == 8 && |v.ak| == 6 && |v.autn| == 16
            && v.ck == Out3(e, opc, rand) && v.ik == Out4(e, opc, rand)
            && (forall i | 0 <= i < 8 :: v.xres[i] == o2[8 + i] && v.autn[8 + i] == o1[i])
            && (forall i | 0 <= i < 6 :: v.ak[i] == o2[i] && v.autn[i] == Add(sqn[i], o2[i]))
            && v.autn[6] == amf[0] && v.autn[7] == amf[1]
  {
    hide GaloisField.Add, Out, Out1;
  }
}
