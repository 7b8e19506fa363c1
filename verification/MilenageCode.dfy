// f1 to f5* of src/crypt/milenage.cpp and the adapter's vector assembly, over
// byte arrays. roundKeys stands for the thread-local table of the source; every
// function rewrites all of it before use.

module MilenageCode {
  import opened GaloisField
  import opened Aes
  import opened Milenage
  import Rijndael

  const ROUNDS := 11

  /** The index that the rotation takes to j. */
  function Back(j: nat, shift: nat): (i: nat)
    requires j < 16 && shift < 16
    ensures i < 16
  {
    if j < shift then j + 16 - shift else j - shift
  }

  lemma BackOfForth(i: nat, shift: nat)
    requires i < 16 && shift < 16
    ensures forall j | 0 <= j < 16 :: Back(j, shift) == i <==> j == (i + shift) % 16
  {}

  /** The loops out[(i + shift) % 16] = a[i] ^ b[i]. */
  method XorRotated(a: array<bv8>, b: array<bv8>, shift: nat, out: array<bv8>)
    requires a.Length == b.Length == out.Length == 16 && shift < 16 && out != a && out != b
    modifies out
    ensures out[..] == Rot(Xor(a[..], b[..]), 16 - shift)
  {
    hide GaloisField.Add;
    for i := 0 to 16
      invariant forall j | 0 <= j < 16 && Back(j, shift) < i :: out[j] == Add(a[Back(j, shift)], b[Back(j, shift)])
    {
      BackOfForth(i, shift);
      out[(i + shift) % 16] := Add(a[i], b[i]);
    }
    forall j | 0 <= j < 16 ensures (j + (16 - shift)) % 16 == Back(j, shift) {}
  }

  /** The loops out[i] ^= b[i]. */
  method XorInto(out: array<bv8>, b: array<bv8>)
    requires out.Length == b.Length && out != b
    modifies out
    ensures out[..] == Xor(old(out[..]), b[..])
  {
    hide GaloisField.Add;
    for i := 0 to out.Length
      invariant forall j | 0 <= j < out.Length :: out[j] == if j < i then Add(old(out[j]), b[j]) else old(out[j])
    {
      out[i] := Add(out[i], b[i]);
    }
  }

  /** The loops out[i] = a[i + from]. */
  method CopyFrom(a: array<bv8>, from: nat, out: array<bv8>)
    requires from + out.Length <= a.Length && out != a
    modifies out
    ensures out[..] == a[from..from + out.Length]
  {
    for i := 0 to out.Length
      invariant forall j | 0 <= j < i :: out[j] == a[from + j]
    {
      out[i] := a[from + i];
    }
  }

  lemma RotByNothing(x: Block)
    ensures Rot(x, 16) == x && Rot(x, 0) == x
  {}

  method XorLastByte(x: array<bv8>, c: bv8)
    requires x.Length == 16
    modifies x
    ensures x[..] == Xor(old(x[..]), LastByte(c))
  {
    hide GaloisField.Add;
    forall i | 0 <= i < 16 ensures Add(x[i], 0) == x[i] { AddZero(x[i]); }
    x[15] := Add(x[15], c);
  }

  /** The part shared by f2, f3, f4, f5, f5* and f1: TEMP, with the key schedule in place. */
  method ComputeTemp(op_c: array<bv8>, k: array<bv8>, rand: array<bv8>, roundKeys: array3<bv8>, temp: array<bv8>)
    requires Rijndael.IsKeyTable(roundKeys)
    requires op_c.Length == k.Length == rand.Length == temp.Length == 16 && temp !in {op_c, k, rand}
    modifies roundKeys, temp
    ensures Rijndael.KeysOf(roundKeys) == KeyExpansion(k[..])
    ensures temp[..] == Temp(KernelOf(k[..]), op_c[..], rand[..])
  {
    hide Encrypt, Cipher, KeyExpansion, Xor, Rot;
    Rijndael.KeySchedule(k, roundKeys);
    var rijndaelInput := new bv8[16];
    XorRotated(rand, op_c, 0, rijndaelInput);
    RotByNothing(Xor(rand[..], op_c[..]));
    Rijndael.Encrypt(rijndaelInput, temp, roundKeys);
    EncryptUnderSchedule(k[..], rijndaelInput[..]);
  }

  lemma EncryptUnderSchedule(k: Block, x: Block)
    ensures Cipher(KeyExpansion(k), x) == KernelOf(k)(x)
  {
    hide Cipher, KeyExpansion;
  }

  /** One output block: rotation by way of the shifted store, constant, encryption, OPc. */
  method ComputeOut(op_c: array<bv8>, temp: array<bv8>, shift: nat, c: bv8, roundKeys: array3<bv8>, ghost k: Block, out: array<bv8>)
    requires Rijndael.IsKeyTable(roundKeys) && Rijndael.KeysOf(roundKeys) == KeyExpansion(k)
    requires op_c.Length == temp.Length == out.Length == 16 && shift < 16 && out !in {op_c, temp}
    modifies out
    ensures out[..] == OutFrom(KernelOf(k), op_c[..], temp[..], (16 - shift) % 16, c)
  {
    hide Encrypt, Cipher, KeyExpansion, Xor, Rot, LastByte, KernelOf;
    var rijndaelInput := new bv8[16];
    XorRotated(temp, op_c, shift, rijndaelInput);
    RotByNothing(Xor(temp[..], op_c[..]));
    assert rijndaelInput[..] == Rot(Xor(temp[..], op_c[..]), (16 - shift) % 16);
    XorLastByte(rijndaelInput, c);
    Rijndael.Encrypt(rijndaelInput, out, roundKeys);
    EncryptUnderSchedule(k, rijndaelInput[..]);
    XorInto(out, op_c);
  }

  method F2345(op_c: array<bv8>, k: array<bv8>, rand: array<bv8>, roundKeys: array3<bv8>,
               res: array<bv8>, ck: array<bv8>, ik: array<bv8>, ak: array<bv8>)
    requires Rijndael.IsKeyTable(roundKeys)
    requires op_c.Length == k.Length == rand.Length == 16
    requires res.Length == 8 && ck.Length == ik.Length == 16 && ak.Length == 6
    requires ck !in {op_c, k, rand} && ik !in {op_c, k, rand, ck}
    modifies roundKeys, res, ck, ik, ak
    ensures res[..] == Out2(KernelOf(k[..]), op_c[..], rand[..])[8..]
    ensures ck[..] == Out3(KernelOf(k[..]), op_c[..], rand[..])
    ensures ik[..] == Out4(KernelOf(k[..]), op_c[..], rand[..])
    ensures ak[..] == Out2(KernelOf(k[..]), op_c[..], rand[..])[..6]
  {
    hide KernelOf, KeyExpansion, OutFrom, Temp;
    var temp, out := new bv8[16], new bv8[16];
    ComputeTemp(op_c, k, rand, roundKeys, temp);

    ComputeOut(op_c, temp, 0, 1, roundKeys, k[..], out);
    CopyFrom(out, 8, res);
    CopyFrom(out, 0, ak);
    assert out[..] == Out2(KernelOf(k[..]), op_c[..], rand[..]);

    ComputeOut(op_c, temp, 12, 2, roundKeys, k[..], out);
    CopyFrom(out, 0, ck);

    ComputeOut(op_c, temp, 8, 4, roundKeys, k[..], out);
    CopyFrom(out, 0, ik);
  }

  method F5Star(op_c: array<bv8>, k: array<bv8>, rand: array<bv8>, roundKeys: array3<bv8>, ak: array<bv8>)
    requires Rijndael.IsKeyTable(roundKeys)
    requires op_c.Length == k.Length == rand.Length == 16 && ak.Length == 6
    modifies roundKeys, ak
    ensures ak[..] == Out5(KernelOf(k[..]), op_c[..], rand[..])[..6]
  {
    hide KernelOf, Encrypt, KeyExpansion, Xor, Rot, LastByte;
    var temp, out := new bv8[16], new bv8[16];
    ComputeTemp(op_c, k, rand, roundKeys, temp);
    ComputeOut(op_c, temp, 4, 8, roundKeys, k[..], out);
    CopyFrom(out, 0, ak);
  }

  /** The loops that lay out SQN || AMF || SQN || AMF. */
  method FillIn1(sqn: array<bv8>, amf: array<bv8>, in1: array<bv8>)
    requires sqn.Length == 6 && amf.Length == 2 && in1.Length == 16
    modifies in1
    ensures in1[..] == In1(sqn[..], amf[..])
  {
    for i := 0 to 6
      invariant forall j | 0 <= j < i :: in1[j] == sqn[j] && in1[j + 8] == sqn[j]
    {
      in1[i] := sqn[i];
      in1[i + 8] := sqn[i];
    }
    for i := 0 to 2
      invariant forall j | 0 <= j < 6 :: in1[j] == sqn[j] && in1[j + 8] == sqn[j]
      invariant forall j | 0 <= j < i :: in1[j + 6] == amf[j] && in1[j + 14] == amf[j]
    {
      in1[i + 6] := amf[i];
      in1[i + 14] := amf[i];
    }
    assert in1[..] == In1(sqn[..], amf[..]) by {
      assert in1[0..6] == sqn[..] && in1[6..8] == amf[..] && in1[8..14] == sqn[..] && in1[14..16] == amf[..];
      assert in1[..] == in1[0..6] + in1[6..8] + in1[8..14] + in1[14..16];
    }
  }

  /** The body f1 and f1* have in common. */
  method ComputeOut1(op_c: array<bv8>, k: array<bv8>, rand: array<bv8>, sqn: array<bv8>, amf: array<bv8>, roundKeys: array3<bv8>, out1: array<bv8>)
    requires Rijndael.IsKeyTable(roundKeys)
    requires op_c.Length == k.Length == rand.Length == out1.Length == 16 && sqn.Length == 6 && amf.Length == 2
    requires out1 !in {op_c, k, rand}
    modifies roundKeys, out1
    ensures out1[..] == Out1(KernelOf(k[..]), op_c[..], rand[..], sqn[..], amf[..])
  {
    hide Encrypt, Cipher, KeyExpansion, Xor, Rot;
    var temp, in1, rijndaelInput := new bv8[16], new bv8[16], new bv8[16];
    ComputeTemp(op_c, k, rand, roundKeys, temp);
    FillIn1(sqn, amf, in1);
    XorRotated(in1, op_c, 8, rijndaelInput);
    XorInto(rijndaelInput, temp);
    Rijndael.Encrypt(rijndaelInput, out1, roundKeys);
    EncryptUnderSchedule(k[..], rijndaelInput[..]);
    XorInto(out1, op_c);
  }

  method F1(op_c: array<bv8>, k: array<bv8>, rand: array<bv8>, sqn: array<bv8>, amf: array<bv8>, roundKeys: array3<bv8>, mac_a: array<bv8>)
    requires Rijndael.IsKeyTable(roundKeys)
    requires op_c.Length == k.Length == rand.Length == 16 && sqn.Length == 6 && amf.Length == 2 && mac_a.Length == 8
    modifies roundKeys, mac_a
    ensures mac_a[..] == Out1(KernelOf(k[..]), op_c[..], rand[..], sqn[..], amf[..])[..8]
  {
    hide KernelOf, Out1;
    var out1 := new bv8[16];
    ComputeOut1(op_c, k, rand, sqn, amf, roundKeys, out1);
    CopyFrom(out1, 0, mac_a);
  }

  method F1Star(op_c: array<bv8>, k: array<bv8>, rand: array<bv8>, sqn: array<bv8>, amf: array<bv8>, roundKeys: array3<bv8>, mac_s: array<bv8>)
    requires Rijndael.IsKeyTable(roundKeys)
    requires op_c.Length == k.Length == rand.Length == 16 && sqn.Length == 6 && amf.Length == 2 && mac_s.Length == 8
    modifies roundKeys, mac_s
    ensures mac_s[..] == Out1(KernelOf(k[..]), op_c[..], rand[..], sqn[..], amf[..])[8..]
  {
    hide KernelOf, Out1;
    var out1 := new bv8[16];
    ComputeOut1(op_c, k, rand, sqn, amf, roundKeys, out1);
    CopyFrom(out1, 8, mac_s);
  }

  method ComputeOPc(op: array<bv8>, key: array<bv8>, roundKeys: array3<bv8>, op_c: array<bv8>)
    requires Rijndael.IsKeyTable(roundKeys)
    requires op.Length == key.Length == op_c.Length == 16 && op_c !in {op, key}
    modifies roundKeys, op_c
    ensures op_c[..] == Opc(KernelOf(key[..]), op[..])
  {
    hide Encrypt, Cipher, KeyExpansion, Xor;
    Rijndael.KeySchedule(key, roundKeys);
    Rijndael.Encrypt(op, op_c, roundKeys);
    EncryptUnderSchedule(key[..], op[..]);
    XorInto(op_c, op);
  }

  /** SQN xor AK, then AMF, then MAC-A. */
  method AssembleAutn(sqn: array<bv8>, amf: array<bv8>, ak: array<bv8>, mac_a: array<bv8>, autn: array<bv8>)
    requires sqn.Length == ak.Length == 6 && amf.Length == 2 && mac_a.Length == 8 && autn.Length == 16
    modifies autn
    ensures autn[..] == Xor(sqn[..], ak[..]) + amf[..] + mac_a[..]
  {
    hide GaloisField.Add;
    for i := 0 to 6
      invariant forall j | 0 <= j < i :: autn[j] == Add(sqn[j], ak[j])
    {
      autn[i] := Add(sqn[i], ak[i]);
    }
    autn[6] := amf[0];
    autn[7] := amf[1];
    for i := 0 to 8
      invariant forall j | 0 <= j < 6 :: autn[j] == Add(sqn[j], ak[j])
      invariant autn[6] == amf[0] && autn[7] == amf[1]
      invariant forall j | 0 <= j < i :: autn[8 + j] == mac_a[j]
    {
      autn[8 + i] := mac_a[i];
    }
    assert autn[..6] == Xor(sqn[..], ak[..]) && autn[6..8] == amf[..] && autn[8..] == mac_a[..];
    assert autn[..] == autn[..6] + autn[6..8] + autn[8..];
  }

  /** The adapter's generate_vector: f2345, f1 and the assembly of AUTN. */
  method GenerateVector(opc: array<bv8>, k: array<bv8>, sqn: array<bv8>, amf: array<bv8>, rand: array<bv8>) returns (v: Vector)
    requires opc.Length == k.Length == rand.Length == 16 && sqn.Length == 6 && amf.Length == 2
    ensures v == VectorOf(KernelOf(k[..]), opc[..], sqn[..], amf[..], rand[..])
  {
    hide KernelOf, Out1, Out2, Out3, Out4, Xor;
    var roundKeys := new bv8[ROUNDS, 4, 4];
    var autn, ck, ik, ak, xres := new bv8[16], new bv8[16], new bv8[16], new bv8[6], new bv8[8];
    F2345(opc, k, rand, roundKeys, xres, ck, ik, ak);
    var mac_a := new bv8[8];
    F1(opc, k, rand, sqn, amf, roundKeys, mac_a);
    AssembleAutn(sqn, amf, ak, mac_a, autn);
    v := Vector(autn[..], ck[..], ik[..], ak[..], xres[..]);
  }
}
