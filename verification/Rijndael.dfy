// The block cipher of src/crypt/milenage.cpp in its own form: a key schedule
// kept in one 11 x 4 x 4 table, and a 4 x 4 state that every transformation
// overwrites in place. Each method is proved against module Aes.

module Rijndael {
  import opened GaloisField
  import opened RijndaelTables
  import opened Aes

  ghost predicate IsState(state: array2<bv8>) {
    state.Length0 == 4 && state.Length1 == 4
  }

  /** The four columns a state array holds. */
  ghost function StateOf(state: array2<bv8>): State
    requires IsState(state)
    reads state
  {
    State(Word(state[0, 0], state[1, 0], state[2, 0], state[3, 0]), Word(state[0, 1], state[1, 1], state[2, 1], state[3, 1]),
          Word(state[0, 2], state[1, 2], state[2, 2], state[3, 2]), Word(state[0, 3], state[1, 3], state[2, 3], state[3, 3]))
  }

  ghost predicate IsKeyTable(keys: array3<bv8>) {
    keys.Length0 == 11 && keys.Length1 == 4 && keys.Length2 == 4
  }

  /** Round key r of the table. */
  ghost function KeyOf(keys: array3<bv8>, r: nat): State
    requires IsKeyTable(keys) && r < 11
    reads keys
  {
    State(Word(keys[r, 0, 0], keys[r, 1, 0], keys[r, 2, 0], keys[r, 3, 0]), Word(keys[r, 0, 1], keys[r, 1, 1], keys[r, 2, 1], keys[r, 3, 1]),
          Word(keys[r, 0, 2], keys[r, 1, 2], keys[r, 2, 2], keys[r, 3, 2]), Word(keys[r, 0, 3], keys[r, 1, 3], keys[r, 2, 3], keys[r, 3, 3]))
  }

  ghost function KeysOf(keys: array3<bv8>): Schedule
    requires IsKeyTable(keys)
    reads keys
  {
    seq(11, r requires 0 <= r < 11 && IsKeyTable(keys) reads keys => KeyOf(keys, r))
  }

  method KeyAdd(state: array2<bv8>, roundKeys: array3<bv8>, round: nat)
    requires IsState(state) && IsKeyTable(roundKeys) && round < 11
    modifies state
    ensures StateOf(state) == AddRoundKey(old(StateOf(state)), KeyOf(roundKeys, round))
  {
    hide GaloisField.Add;
    for i := 0 to 4
      invariant forall p, q | 0 <= p < 4 && 0 <= q < 4 ::
        state[p, q] == if p < i then Add(old(state[p, q]), roundKeys[round, p, q]) else old(state[p, q])
    {
      for j := 0 to 4
        invariant forall p, q | 0 <= p < 4 && 0 <= q < 4 ::
          state[p, q] == if p < i || (p == i && q < j) then Add(old(state[p, q]), roundKeys[round, p, q]) else old(state[p, q])
      {
        state[i, j] := Add(state[i, j], roundKeys[round, i, j]);
      }
    }
  }

  method ByteSub(state: array2<bv8>)
    requires IsState(state)
    modifies state
    ensures StateOf(state) == SubBytes(old(StateOf(state)))
  {
    hide RijndaelTables.S;
    for i := 0 to 4
      invariant forall p, q | 0 <= p < 4 && 0 <= q < 4 ::
        state[p, q] == if p < i then S(old(state[p, q])) else old(state[p, q])
    {
      for j := 0 to 4
        invariant forall p, q | 0 <= p < 4 && 0 <= q < 4 ::
          state[p, q] == if p < i || (p == i && q < j) then S(old(state[p, q])) else old(state[p, q])
      {
        state[i, j] := S(state[i, j]);
      }
    }
  }

  twostate predicate OtherRowsKept(state: array2<bv8>, row: nat)
    requires IsState(state)
    reads state
  {
    forall p, q | 0 <= p < 4 && 0 <= q < 4 && p != row :: state[p, q] == old(state[p, q])
  }

  method RotateRow1(state: array2<bv8>)
    requires IsState(state)
    modifies state
    ensures state[1, 0] == old(state[1, 1]) && state[1, 1] == old(state[1, 2]) && state[1, 2] == old(state[1, 3]) && state[1, 3] == old(state[1, 0])
    ensures OtherRowsKept(state, 1)
  {
    var temp := state[1, 0];
    state[1, 0] := state[1, 1];
    state[1, 1] := state[1, 2];
    state[1, 2] := state[1, 3];
    state[1, 3] := temp;
  }

  method RotateRow2(state: array2<bv8>)
    requires IsState(state)
    modifies state
    ensures state[2, 0] == old(state[2, 2]) && state[2, 1] == old(state[2, 3]) && state[2, 2] == old(state[2, 0]) && state[2, 3] == old(state[2, 1])
    ensures OtherRowsKept(state, 2)
  {
    var temp := state[2, 0];
    state[2, 0] := state[2, 2];
    state[2, 2] := temp;
    temp := state[2, 1];
    state[2, 1] := state[2, 3];
    state[2, 3] := temp;
  }

  method RotateRow3(state: array2<bv8>)
    requires IsState(state)
    modifies state
    ensures state[3, 0] == old(state[3, 3]) && state[3, 1] == old(state[3, 0]) && state[3, 2] == old(state[3, 1]) && state[3, 3] == old(state[3, 2])
    ensures OtherRowsKept(state, 3)
  {
    var temp := state[3, 0];
    state[3, 0] := state[3, 3];
    state[3, 3] := state[3, 2];
    state[3, 2] := state[3, 1];
    state[3, 1] := temp;
  }

  /** The source writes the three row rotations in one body. */
  method ShiftRow(state: array2<bv8>)
    requires IsState(state)
    modifies state
    ensures StateOf(state) == ShiftRows(old(StateOf(state)))
  {
    RotateRow1(state);
    RotateRow2(state);
    RotateRow3(state);
  }

  /** One mixed byte the way the source writes it. */
  lemma MixAsWritten(a: bv8, b: bv8, c: bv8, d: bv8)
    ensures Add(a, Add(Add(Add(Add(a, b), c), d), Xtime(Add(a, b)))) == Mix(a, b, c, d)
  {
    hide GaloisField.Add, GaloisField.Times2, RijndaelTables.Xtime, Mix;
    XtimeIsTimes2(Add(a, b));
    MixBySum(a, b, c, d);
    AddAssociates(Add(a, b), c, d);
    AddAssociates(a, Sum4(a, b, c, d), Times2(Add(a, b)));
  }

  lemma SumRotates(a: bv8, b: bv8, c: bv8, d: bv8)
    ensures Add(Add(Add(a, b), c), d) == Add(Add(Add(b, c), d), a)
  {
    hide GaloisField.Add;
    AddAssociates(a, b, c);
    AddAssociates(a, Add(b, c), d);
    AddCommutes(a, Add(Add(b, c), d));
  }

  /** Column q holds the mixed bytes of a, b, c, d. */
  ghost predicate MixedColumn(state: array2<bv8>, q: nat, a: bv8, b: bv8, c: bv8, d: bv8)
    requires IsState(state) && q < 4
    reads state
  {
    state[0, q] == Mix(a, b, c, d) && state[1, q] == Mix(b, c, d, a) && state[2, q] == Mix(c, d, a, b) && state[3, q] == Mix(d, a, b, c)
  }

  twostate predicate OtherColumnsKept(state: array2<bv8>, col: nat)
    requires IsState(state)
    reads state
  {
    forall p, q | 0 <= p < 4 && 0 <= q < 4 && q != col :: state[p, q] == old(state[p, q])
  }

  /** The body of the source's loop over columns. */
  method MixOneColumn(state: array2<bv8>, i: nat)
    requires IsState(state) && i < 4
    modifies state
    ensures MixedColumn(state, i, old(state[0, i]), old(state[1, i]), old(state[2, i]), old(state[3, i]))
    ensures OtherColumnsKept(state, i)
  {
    hide GaloisField.Add, RijndaelTables.Xtime, Mix;
    ghost var a, b, c, d := state[0, i], state[1, i], state[2, i], state[3, i];
    var temp := Add(Add(Add(state[0, i], state[1, i]), state[2, i]), state[3, i]);
    var tmp0 := state[0, i];
    var tmp := Xtime(Add(state[0, i], state[1, i]));
    state[0, i] := Add(state[0, i], Add(temp, tmp));

    tmp := Xtime(Add(state[1, i], state[2, i]));
    state[1, i] := Add(state[1, i], Add(temp, tmp));

    tmp := Xtime(Add(state[2, i], state[3, i]));
    state[2, i] := Add(state[2, i], Add(temp, tmp));

    tmp := Xtime(Add(state[3, i], tmp0));
    state[3, i] := Add(state[3, i], Add(temp, tmp));
    SumRotates(a, b, c, d);
    SumRotates(b, c, d, a);
    SumRotates(c, d, a, b);
    MixAsWritten(a, b, c, d);
    MixAsWritten(b, c, d, a);
    MixAsWritten(c, d, a, b);
    MixAsWritten(d, a, b, c);
  }

  method MixColumn(state: array2<bv8>)
    requires IsState(state)
    modifies state
    ensures StateOf(state) == MixColumns(old(StateOf(state)))
  {
    hide RijndaelTables.Xtime, Mix;
    for i := 0 to 4
      invariant forall q | 0 <= q < i ::
        MixedColumn(state, q, old(state[0, q]), old(state[1, q]), old(state[2, q]), old(state[3, q]))
      invariant forall p, q | 0 <= p < 4 && i <= q < 4 :: state[p, q] == old(state[p, q])
    {
      MixOneColumn(state, i);
    }
  }

  // ---------- Key schedule ----------

  /** The round key after k, as section 5.2 derives its four words. */
  function NextKey(k: State, rcon: bv8): State {
    var c0 := XorWord(k.c0, XorWord(SubWord(RotWord(k.c3)), Word(rcon, 0, 0, 0)));
    var c1 := XorWord(k.c1, c0);
    var c2 := XorWord(k.c2, c1);
    State(c0, c1, c2, XorWord(k.c3, c2))
  }

  lemma RoundKeyFollows(key: Block, r: nat)
    requires r >= 1
    ensures RoundKey(key, r) == NextKey(RoundKey(key, r - 1), Rcon(r))
  {
    hide XorWord, SubWord, RotWord, WordAt, Rcon;
    var i := 4 * r;
    assert i % 4 == 0 && i / 4 == r && (i + 1) % 4 == 1 && (i + 2) % 4 == 2 && (i + 3) % 4 == 3;
    assert KeyWord(key, i) == XorWord(KeyWord(key, i - 4), XorWord(SubWord(RotWord(KeyWord(key, i - 1))), Word(Rcon(r), 0, 0, 0)));
    assert KeyWord(key, i + 1) == XorWord(KeyWord(key, i - 3), KeyWord(key, i));
    assert KeyWord(key, i + 2) == XorWord(KeyWord(key, i - 2), KeyWord(key, i + 1));
    assert KeyWord(key, i + 3) == XorWord(KeyWord(key, i - 1), KeyWord(key, i + 2));
  }

  lemma FirstColumnAsWritten(s: bv8, k: bv8, rcon: bv8)
    ensures Add(Add(s, k), rcon) == Add(k, Add(s, rcon))
    ensures Add(s, k) == Add(k, Add(s, 0))
  {}

  twostate predicate OtherKeysKept(keys: array3<bv8>, r: nat)
    requires IsKeyTable(keys)
    reads keys
  {
    forall i, p, q | 0 <= i < 11 && 0 <= p < 4 && 0 <= q < 4 && i != r :: keys[i, p, q] == old(keys[i, p, q])
  }

  /** Column 0 of round key i. */
  method ExpandFirstColumn(roundKeys: array3<bv8>, i: nat, roundConst: bv8)
    requires IsKeyTable(roundKeys) && 1 <= i < 11
    modifies roundKeys
    ensures KeyOf(roundKeys, i).c0 == NextKey(old(KeyOf(roundKeys, i - 1)), roundConst).c0
    ensures OtherKeysKept(roundKeys, i)
  {
    hide GaloisField.Add, RijndaelTables.S;
    FirstColumnAsWritten(S(roundKeys[i - 1, 1, 3]), roundKeys[i - 1, 0, 0], roundConst);
    FirstColumnAsWritten(S(roundKeys[i - 1, 2, 3]), roundKeys[i - 1, 1, 0], 0);
    FirstColumnAsWritten(S(roundKeys[i - 1, 3, 3]), roundKeys[i - 1, 2, 0], 0);
    FirstColumnAsWritten(S(roundKeys[i - 1, 0, 3]), roundKeys[i - 1, 3, 0], 0);
    roundKeys[i, 0, 0] := Add(Add(S(roundKeys[i - 1, 1, 3]), roundKeys[i - 1, 0, 0]), roundConst);
    roundKeys[i, 1, 0] := Add(S(roundKeys[i - 1, 2, 3]), roundKeys[i - 1, 1, 0]);
    roundKeys[i, 2, 0] := Add(S(roundKeys[i - 1, 3, 3]), roundKeys[i - 1, 2, 0]);
    roundKeys[i, 3, 0] := Add(S(roundKeys[i - 1, 0, 3]), roundKeys[i - 1, 3, 0]);
  }

  /** Row j of columns 1 to 3 of round key i: the body of the inner loop. */
  method ExpandRow(roundKeys: array3<bv8>, i: nat, j: nat)
    requires IsKeyTable(roundKeys) && 1 <= i < 11 && j < 4
    modifies roundKeys
    ensures roundKeys[i, j, 1] == Add(roundKeys[i - 1, j, 1], roundKeys[i, j, 0])
    ensures roundKeys[i, j, 2] == Add(roundKeys[i - 1, j, 2], roundKeys[i, j, 1])
    ensures roundKeys[i, j, 3] == Add(roundKeys[i - 1, j, 3], roundKeys[i, j, 2])
    ensures forall r, p, q | 0 <= r < 11 && 0 <= p < 4 && 0 <= q < 4 && (r != i || p != j || q == 0) ::
      roundKeys[r, p, q] == old(roundKeys[r, p, q])
  {
    hide GaloisField.Add;
    roundKeys[i, j, 1] := Add(roundKeys[i - 1, j, 1], roundKeys[i, j, 0]);
    roundKeys[i, j, 2] := Add(roundKeys[i - 1, j, 2], roundKeys[i, j, 1]);
    roundKeys[i, j, 3] := Add(roundKeys[i - 1, j, 3], roundKeys[i, j, 2]);
  }

  /** The body of the source's loop over rounds. */
  method ExpandRound(roundKeys: array3<bv8>, i: nat, roundConst: bv8)
    requires IsKeyTable(roundKeys) && 1 <= i < 11
    modifies roundKeys
    ensures KeyOf(roundKeys, i) == NextKey(old(KeyOf(roundKeys, i - 1)), roundConst)
    ensures OtherKeysKept(roundKeys, i)
  {
    hide GaloisField.Add, SubWord;
    ghost var before := KeyOf(roundKeys, i - 1);
    ExpandFirstColumn(roundKeys, i, roundConst);
    for j := 0 to 4
      invariant OtherKeysKept(roundKeys, i)
      invariant KeyOf(roundKeys, i - 1) == before
      invariant KeyOf(roundKeys, i).c0 == NextKey(before, roundConst).c0
      invariant forall p | 0 <= p < j ::
        && roundKeys[i, p, 1] == Add(roundKeys[i - 1, p, 1], roundKeys[i, p, 0])
        && roundKeys[i, p, 2] == Add(roundKeys[i - 1, p, 2], roundKeys[i, p, 1])
        && roundKeys[i, p, 3] == Add(roundKeys[i - 1, p, 3], roundKeys[i, p, 2])
    {
      ExpandRow(roundKeys, i, j);
    }
  }

  /** The source's first loop: the first round key is the key. */
  method LoadFirstKey(key: array<bv8>, roundKeys: array3<bv8>)
    requires IsKeyTable(roundKeys) && key.Length == 16
    modifies roundKeys
    ensures KeyOf(roundKeys, 0) == RoundKey(key[..], 0)
  {
    ghost var k: Block := key[..];
    for i := 0 to 16
      invariant forall p, q | 0 <= p < 4 && 0 <= q < 4 && p + 4 * q < i :: roundKeys[0, p, q] == k[p + 4 * q]
    {
      assert i == i % 4 + 4 * (i / 4);
      roundKeys[0, i % 4, i / 4] := key[i];
    }
  }

  method KeySchedule(key: array<bv8>, roundKeys: array3<bv8>)
    requires IsKeyTable(roundKeys) && key.Length == 16
    modifies roundKeys
    ensures KeysOf(roundKeys) == KeyExpansion(key[..])
  {
    hide RoundKey, NextKey, RijndaelTables.Xtime;
    ghost var k: Block := key[..];
    LoadFirstKey(key, roundKeys);
    var roundConst := 1;
    for i := 1 to 11
      invariant roundConst == Rcon(i)
      invariant forall r | 0 <= r < i :: KeyOf(roundKeys, r) == RoundKey(k, r)
    {
      ExpandRound(roundKeys, i, roundConst);
      RoundKeyFollows(k, i);
      XtimeIsTimes2(roundConst);
      roundConst := Xtime(roundConst);
    }
  }

  // ---------- Encryption ----------

  /** The source's first loop: byte i goes to row i % 4 of column i / 4. */
  method LoadState(input: array<bv8>, state: array2<bv8>)
    requires IsState(state) && input.Length == 16
    modifies state
    ensures StateOf(state) == FromBlock(input[..])
  {
    ghost var b: Block := input[..];
    for i := 0 to 16
      invariant forall p, q | 0 <= p < 4 && 0 <= q < 4 && p + 4 * q < i :: state[p, q] == b[p + 4 * q]
    {
      assert i == i % 4 + 4 * (i / 4);
      state[i % 4, i / 4] := input[i];
    }
  }

  /** The source's last loop. */
  method StoreState(state: array2<bv8>, output: array<bv8>)
    requires IsState(state) && output.Length == 16
    modifies output
    ensures output[..] == ToBlock(StateOf(state))
  {
    for i := 0 to 16
      invariant forall p, q | 0 <= p < 4 && 0 <= q < 4 && p + 4 * q < i :: output[p + 4 * q] == state[p, q]
    {
      assert i == i % 4 + 4 * (i / 4);
      output[i] := state[i % 4, i / 4];
    }
    assert FromBlock(output[..]) == StateOf(state);
    BlockRoundTrips(output[..], StateOf(state));
  }

  method Encrypt(input: array<bv8>, output: array<bv8>, roundKeys: array3<bv8>)
    requires IsKeyTable(roundKeys) && input.Length == 16 && output.Length == 16
    modifies output
    ensures output[..] == Cipher(KeysOf(roundKeys), old(input[..]))
  {
    hide AddRoundKey, SubBytes, ShiftRows, MixColumns, FromBlock, ToBlock, StateOf, KeyOf;
    ghost var s, ks := FromBlock(input[..]), KeysOf(roundKeys);
    var state := new bv8[4, 4];
    LoadState(input, state);
    KeyAdd(state, roundKeys, 0);
    var r := 1;
    while r <= 9
      invariant 1 <= r <= 10
      invariant StateOf(state) == Rounds(ks, s, r - 1)
    {
      ByteSub(state);
      ShiftRow(state);
      MixColumn(state);
      KeyAdd(state, roundKeys, r);
      r := r + 1;
    }
    ByteSub(state);
    ShiftRow(state);
    KeyAdd(state, roundKeys, r);
    StoreState(state, output);
  }
}
