// AES-128 as FIPS 197 writes it: the reference the in-place cipher of
// src/crypt/milenage.cpp is measured against. A state is four columns of four
// bytes; byte i of a block is row i % 4 of column i / 4 (section 3.4).

module Aes {
  import opened GaloisField
  import opened RijndaelTables

  datatype Word = Word(b0: bv8, b1: bv8, b2: bv8, b3: bv8)

  datatype State = State(c0: Word, c1: Word, c2: Word, c3: Word)

  const ZERO_BLOCK: seq<bv8> := seq(16, _ => 0)

  type Block = b: seq<bv8> | |b| == 16 witness ZERO_BLOCK

  function WordAt(b: seq<bv8>, i: nat): Word
    requires i + 4 <= |b|
  {
    Word(b[i], b[i + 1], b[i + 2], b[i + 3])
  }

  function FromBlock(b: Block): State {
    State(WordAt(b, 0), WordAt(b, 4), WordAt(b, 8), WordAt(b, 12))
  }

  function ToBlock(s: State): Block {
    [s.c0.b0, s.c0.b1, s.c0.b2, s.c0.b3, s.c1.b0, s.c1.b1, s.c1.b2, s.c1.b3,
     s.c2.b0, s.c2.b1, s.c2.b2, s.c2.b3, s.c3.b0, s.c3.b1, s.c3.b2, s.c3.b3]
  }

  function XorWord(v: Word, w: Word): Word {
    Word(Add(v.b0, w.b0), Add(v.b1, w.b1), Add(v.b2, w.b2), Add(v.b3, w.b3))
  }

  // ---------- Transformations (sections 5.1.1 to 5.1.4) ----------

  function SubWord(w: Word): Word { Word(S(w.b0), S(w.b1), S(w.b2), S(w.b3)) }

  function SubBytes(s: State): State {
    State(SubWord(s.c0), SubWord(s.c1), SubWord(s.c2), SubWord(s.c3))
  }

  /** Row r is rotated left by r. */
  function ShiftRows(s: State): State {
    State(Word(s.c0.b0, s.c1.b1, s.c2.b2, s.c3.b3), Word(s.c1.b0, s.c2.b1, s.c3.b2, s.c0.b3),
          Word(s.c2.b0, s.c3.b1, s.c0.b2, s.c1.b3), Word(s.c3.b0, s.c0.b1, s.c1.b2, s.c2.b3))
  }

  /** One row of the matrix product: 02 a + 03 b + c + d. */
  function Mix(a: bv8, b: bv8, c: bv8, d: bv8): bv8 {
    Add(Add(Times2(a), Add(Times2(b), b)), Add(c, d))
  }

  function MixWord(w: Word): Word {
    Word(Mix(w.b0, w.b1, w.b2, w.b3), Mix(w.b1, w.b2, w.b3, w.b0), Mix(w.b2, w.b3, w.b0, w.b1), Mix(w.b3, w.b0, w.b1, w.b2))
  }

  function MixColumns(s: State): State {
    State(MixWord(s.c0), MixWord(s.c1), MixWord(s.c2), MixWord(s.c3))
  }

  function AddRoundKey(s: State, k: State): State {
    State(XorWord(s.c0, k.c0), XorWord(s.c1, k.c1), XorWord(s.c2, k.c2), XorWord(s.c3, k.c3))
  }

  // ---------- Key expansion (section 5.2) ----------

  function RotWord(w: Word): Word { Word(w.b1, w.b2, w.b3, w.b0) }

  /** The powers of x: Rcon(1) = 1. */
  function Rcon(i: nat): bv8
    requires i >= 1
  {
    if i == 1 then 1 else Times2(Rcon(i - 1))
  }

  /** The words w[i] of the expanded key. */
  function KeyWord(key: Block, i: nat): Word {
    if i < 4 then WordAt(key, 4 * i)
    else
      var temp := KeyWord(key, i - 1);
      XorWord(KeyWord(key, i - 4), if i % 4 == 0 then XorWord(SubWord(RotWord(temp)), Word(Rcon(i / 4), 0, 0, 0)) else temp)
  }

  function RoundKey(key: Block, r: nat): State {
    State(KeyWord(key, 4 * r), KeyWord(key, 4 * r + 1), KeyWord(key, 4 * r + 2), KeyWord(key, 4 * r + 3))
  }

  const ZERO_STATE := var w := Word(0, 0, 0, 0); State(w, w, w, w)

  type Schedule = ks: seq<State> | |ks| == 11 witness seq(11, _ => ZERO_STATE)

  function KeyExpansion(key: Block): Schedule {
    seq(11, r requires 0 <= r < 11 => RoundKey(key, r))
  }

  // ---------- Cipher and inverse cipher (sections 5.1 and 5.3) ----------

  /** The state after the initial key addition and r full rounds. */
  function Rounds(ks: Schedule, s: State, r: nat): State
    requires r <= 9
  {
    if r == 0 then AddRoundKey(s, ks[0])
    else AddRoundKey(MixColumns(ShiftRows(SubBytes(Rounds(ks, s, r - 1)))), ks[r])
  }

  function Cipher(ks: Schedule, b: Block): Block {
    ToBlock(AddRoundKey(ShiftRows(SubBytes(Rounds(ks, FromBlock(b), 9))), ks[10]))
  }

  function Encrypt(key: Block, b: Block): Block {
    Cipher(KeyExpansion(key), b)
  }

  function InvSubWord(w: Word): Word { Word(InvS(w.b0), InvS(w.b1), InvS(w.b2), InvS(w.b3)) }

  function InvSubBytes(s: State): State {
    State(InvSubWord(s.c0), InvSubWord(s.c1), InvSubWord(s.c2), InvSubWord(s.c3))
  }

  function InvShiftRows(s: State): State {
    State(Word(s.c0.b0, s.c3.b1, s.c2.b2, s.c1.b3), Word(s.c1.b0, s.c0.b1, s.c3.b2, s.c2.b3),
          Word(s.c2.b0, s.c1.b1, s.c0.b2, s.c3.b3), Word(s.c3.b0, s.c2.b1, s.c1.b2, s.c0.b3))
  }

  /** MixColumns has order four, so its cube is its inverse. */
  function InvMixColumns(s: State): State {
    MixColumns(MixColumns(MixColumns(s)))
  }

  function InvRounds(ks: Schedule, s: State, r: nat): State
    requires r <= 9
    decreases r
  {
    if r == 0 then AddRoundKey(s, ks[0])
    else InvRounds(ks, InvSubBytes(InvShiftRows(InvMixColumns(AddRoundKey(s, ks[r])))), r - 1)
  }

  function InvCipher(ks: Schedule, c: Block): Block {
    ToBlock(InvRounds(ks, InvSubBytes(InvShiftRows(AddRoundKey(FromBlock(c), ks[10]))), 9))
  }

  // ---------- Every step is undone by its inverse ----------

  lemma BlockRoundTrips(b: Block, s: State)
    ensures ToBlock(FromBlock(b)) == b
    ensures FromBlock(ToBlock(s)) == s
  {}

  lemma XorWordCancels(w: Word, k: Word)
    ensures XorWord(XorWord(w, k), k) == w
  {
    hide GaloisField.Add;
    AddCancelsRight(w.b0, k.b0);
    AddCancelsRight(w.b1, k.b1);
    AddCancelsRight(w.b2, k.b2);
    AddCancelsRight(w.b3, k.b3);
  }

  lemma AddRoundKeyCancels(s: State, k: State)
    ensures AddRoundKey(AddRoundKey(s, k), k) == s
  {
    hide XorWord;
    XorWordCancels(s.c0, k.c0);
    XorWordCancels(s.c1, k.c1);
    XorWordCancels(s.c2, k.c2);
    XorWordCancels(s.c3, k.c3);
  }

  lemma InvSubWordUndoes(w: Word)
    ensures InvSubWord(SubWord(w)) == w
  {
    hide RijndaelTables.S, RijndaelTables.InvS;
    InvSUndoesS(w.b0);
    InvSUndoesS(w.b1);
    InvSUndoesS(w.b2);
    InvSUndoesS(w.b3);
  }

  lemma InvSubBytesUndoes(s: State)
    ensures InvSubBytes(SubBytes(s)) == s
  {
    hide SubWord, InvSubWord;
    InvSubWordUndoes(s.c0);
    InvSubWordUndoes(s.c1);
    InvSubWordUndoes(s.c2);
    InvSubWordUndoes(s.c3);
  }

  lemma InvShiftRowsUndoes(s: State)
    ensures InvShiftRows(ShiftRows(s)) == s
  {}

  /** The source computes a mixed byte as a + (a + b + c + d) + 02 (a + b). */
  lemma MixBySum(a: bv8, b: bv8, c: bv8, d: bv8)
    ensures Mix(a, b, c, d) == Add(Add(a, Sum4(a, b, c, d)), Times2(Add(a, b)))
  {
    hide GaloisField.Add, GaloisField.Times2, GaloisField.Sum4;
    MixBySumXor(a, b, c, d, Times2(a), Times2(b));
    Times2Distributes(a, b);
  }

  lemma MixBySumXor(a: bv8, b: bv8, c: bv8, d: bv8, a2: bv8, b2: bv8)
    ensures Add(Add(a2, Add(b2, b)), Add(c, d)) == Add(Add(a, Sum4(a, b, c, d)), Add(a2, b2))
  {}

  lemma MixNeighbours(a: bv8, b: bv8, c: bv8, d: bv8)
    ensures Add(Mix(a, b, c, d), Mix(b, c, d, a)) == Add(Add(a, b), Times2(Add(a, c)))
  {
    hide GaloisField.Add, GaloisField.Times2, GaloisField.Sum4, Mix;
    var t := Sum4(a, b, c, d);
    MixBySum(a, b, c, d);
    MixBySum(b, c, d, a);
    Sum4Rotates(a, b, c, d);
    AddInterchange(Add(a, t), Times2(Add(a, b)), Add(b, t), Times2(Add(b, c)));
    AddCancelsBoth(a, t, b);
    Times2Distributes(Add(a, b), Add(b, c));
    AddTelescopes(a, b, c);
  }

  lemma MixKeepsSum(a: bv8, b: bv8, c: bv8, d: bv8)
    ensures Sum4(Mix(a, b, c, d), Mix(b, c, d, a), Mix(c, d, a, b), Mix(d, a, b, c)) == Sum4(a, b, c, d)
  {
    hide GaloisField.Add, GaloisField.Times2, Mix;
    MixNeighbours(a, b, c, d);
    MixNeighbours(c, d, a, b);
    AddCommutes(a, c);
    AddCancelsBoth(Add(a, b), Times2(Add(a, c)), Add(c, d));
  }

  /** Twice mixing a column leaves a + 04 (a + c) in place of a. */
  lemma MixTwice(a: bv8, b: bv8, c: bv8, d: bv8)
    ensures Mix(Mix(a, b, c, d), Mix(b, c, d, a), Mix(c, d, a, b), Mix(d, a, b, c)) == Add(a, Times2(Times2(Add(a, c))))
  {
    hide GaloisField.Add, GaloisField.Times2, GaloisField.Sum4, Mix;
    var t, p, q := Sum4(a, b, c, d), Times2(Add(a, b)), Times2(Times2(Add(a, c)));
    MixBySum(Mix(a, b, c, d), Mix(b, c, d, a), Mix(c, d, a, b), Mix(d, a, b, c));
    MixKeepsSum(a, b, c, d);
    MixBySum(a, b, c, d);
    MixNeighbours(a, b, c, d);
    Times2Distributes(Add(a, b), Times2(Add(a, c)));
    MixTwiceXor(a, t, p, q);
  }

  lemma MixTwiceXor(a: bv8, t: bv8, p: bv8, q: bv8)
    ensures Add(Add(Add(Add(a, t), p), t), Add(p, q)) == Add(a, q)
  {}

  /** Four times mixing a column gives it back. */
  lemma MixFourTimes(a: bv8, b: bv8, c: bv8, d: bv8)
    ensures var p, q, r, s := Mix(a, b, c, d), Mix(b, c, d, a), Mix(c, d, a, b), Mix(d, a, b, c);
            var t, u, v, w := Mix(p, q, r, s), Mix(q, r, s, p), Mix(r, s, p, q), Mix(s, p, q, r);
            Mix(Mix(t, u, v, w), Mix(u, v, w, t), Mix(v, w, t, u), Mix(w, t, u, v)) == a
  {
    hide GaloisField.Add, GaloisField.Times2, Mix;
    var p, q, r, s := Mix(a, b, c, d), Mix(b, c, d, a), Mix(c, d, a, b), Mix(d, a, b, c);
    var k := Times2(Times2(Add(a, c)));
    MixTwice(a, b, c, d);
    MixTwice(c, d, a, b);
    AddCommutes(a, c);
    MixTwice(Mix(p, q, r, s), Mix(q, r, s, p), Mix(r, s, p, q), Mix(s, p, q, r));
    AddCancelsBoth(a, k, c);
    AddCancelsRight(a, k);
  }

  lemma MixWordFourTimes(w: Word)
    ensures MixWord(MixWord(MixWord(MixWord(w)))) == w
  {
    hide Mix;
    MixFourTimes(w.b0, w.b1, w.b2, w.b3);
    MixFourTimes(w.b1, w.b2, w.b3, w.b0);
    MixFourTimes(w.b2, w.b3, w.b0, w.b1);
    MixFourTimes(w.b3, w.b0, w.b1, w.b2);
  }

  /** Four applications of MixColumns give the state back. */
  lemma MixColumnsFourTimes(s: State)
    ensures MixColumns(MixColumns(MixColumns(MixColumns(s)))) == s
  {
    hide MixWord;
    MixWordFourTimes(s.c0);
    MixWordFourTimes(s.c1);
    MixWordFourTimes(s.c2);
    MixWordFourTimes(s.c3);
  }

  lemma {:induction false} InvRoundsUndoes(ks: Schedule, s: State, r: nat)
    requires r <= 9
    ensures InvRounds(ks, Rounds(ks, s, r), r) == s
  {
    hide AddRoundKey, SubBytes, ShiftRows, MixColumns, InvSubBytes, InvShiftRows;
    if r == 0 {
      AddRoundKeyCancels(s, ks[0]);
    } else {
      var prev := Rounds(ks, s, r - 1);
      AddRoundKeyCancels(MixColumns(ShiftRows(SubBytes(prev))), ks[r]);
      MixColumnsFourTimes(ShiftRows(SubBytes(prev)));
      InvShiftRowsUndoes(SubBytes(prev));
      InvSubBytesUndoes(prev);
      InvRoundsUndoes(ks, s, r - 1);
    }
  }

  /** Decryption undoes encryption, under any eleven round keys. */
  lemma InvCipherUndoesCipher(ks: Schedule, b: Block)
    ensures InvCipher(ks, Cipher(ks, b)) == b
  {
    hide AddRoundKey, SubBytes, ShiftRows, InvSubBytes, InvShiftRows, Rounds, InvRounds, FromBlock, ToBlock;
    var last := Rounds(ks, FromBlock(b), 9);
    var c := AddRoundKey(ShiftRows(SubBytes(last)), ks[10]);
    BlockRoundTrips(b, c);
    AddRoundKeyCancels(ShiftRows(SubBytes(last)), ks[10]);
    InvShiftRowsUndoes(SubBytes(last));
    InvSubBytesUndoes(last);
    InvRoundsUndoes(ks, FromBlock(b), 9);
  }

  /** For every key, encryption takes different blocks to different blocks. */
  lemma EncryptIsInjective(key: Block, a: Block, b: Block)
    ensures Encrypt(key, a) == Encrypt(key, b) <==> a == b
  {
    hide Cipher, InvCipher, KeyExpansion;
    InvCipherUndoesCipher(KeyExpansion(key), a);
    InvCipherUndoesCipher(KeyExpansion(key), b);
  }
}
