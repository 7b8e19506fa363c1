// The examples of FIPS 197 for AES-128: the key expansion of appendix A.1 and
// the cipher of appendix B, byte by byte.

module AesExamples {

  import opened GaloisField
  import opened RijndaelTables
  import opened Aes
  import opened Rijndael

  function Key(): Block {
    [0x2b, 0x7e, 0x15, 0x16, 0x28, 0xae, 0xd2, 0xa6, 0xab, 0xf7, 0x15, 0x88, 0x09, 0xcf, 0x4f, 0x3c]
  }

  function Input(): Block {
    [0x32, 0x43, 0xf6, 0xa8, 0x88, 0x5a, 0x30, 0x8d, 0x31, 0x31, 0x98, 0xa2, 0xe0, 0x37, 0x07, 0x34]
  }

  function Output(): Block {
    [0x39, 0x25, 0x84, 0x1d, 0x02, 0xdc, 0x09, 0xfb, 0xdc, 0x11, 0x85, 0x97, 0x19, 0x6a, 0x0b, 0x32]
  }

  // ---------- Appendix A.1 ----------

  /** The round keys of appendix A.1, four words each. */
  function ExpandedKey(r: nat): State {
    match r
    case 0 => W0()
    case 1 => W1()
    case 2 => W2()
    case 3 => W3()
    case 4 => W4()
    case 5 => W5()
    case 6 => W6()
    case 7 => W7()
    case 8 => W8()
    case 9 => W9()
    case _ => W10()
  }

  function W0(): State { State(Word(0x2b, 0x7e, 0x15, 0x16), Word(0x28, 0xae, 0xd2, 0xa6), Word(0xab, 0xf7, 0x15, 0x88), Word(0x09, 0xcf, 0x4f, 0x3c)) }

  function W1(): State { State(Word(0xa0, 0xfa, 0xfe, 0x17), Word(0x88, 0x54, 0x2c, 0xb1), Word(0x23, 0xa3, 0x39, 0x39), Word(0x2a, 0x6c, 0x76, 0x05)) }

  function W2(): State { State(Word(0xf2, 0xc2, 0x95, 0xf2), Word(0x7a, 0x96, 0xb9, 0x43), Word(0x59, 0x35, 0x80, 0x7a), Word(0x73, 0x59, 0xf6, 0x7f)) }

  function W3(): State { State(Word(0x3d, 0x80, 0x47, 0x7d), Word(0x47, 0x16, 0xfe, 0x3e), Word(0x1e, 0x23, 0x7e, 0x44), Word(0x6d, 0x7a, 0x88, 0x3b)) }

  function W4(): State { State(Word(0xef, 0x44, 0xa5, 0x41), Word(0xa8, 0x52, 0x5b, 0x7f), Word(0xb6, 0x71, 0x25, 0x3b), Word(0xdb, 0x0b, 0xad, 0x00)) }

  function W5(): State { State(Word(0xd4, 0xd1, 0xc6, 0xf8), Word(0x7c, 0x83, 0x9d, 0x87), Word(0xca, 0xf2, 0xb8, 0xbc), Word(0x11, 0xf9, 0x15, 0xbc)) }

  function W6(): State { State(Word(0x6d, 0x88, 0xa3, 0x7a), Word(0x11, 0x0b, 0x3e, 0xfd), Word(0xdb, 0xf9, 0x86, 0x41), Word(0xca, 0x00, 0x93, 0xfd)) }

  function W7(): State { State(Word(0x4e, 0x54, 0xf7, 0x0e), Word(0x5f, 0x5f, 0xc9, 0xf3), Word(0x84, 0xa6, 0x4f, 0xb2), Word(0x4e, 0xa6, 0xdc, 0x4f)) }

  function W8(): State { State(Word(0xea, 0xd2, 0x73, 0x21), Word(0xb5, 0x8d, 0xba, 0xd2), Word(0x31, 0x2b, 0xf5, 0x60), Word(0x7f, 0x8d, 0x29, 0x2f)) }

  function W9(): State { State(Word(0xac, 0x77, 0x66, 0xf3), Word(0x19, 0xfa, 0xdc, 0x21), Word(0x28, 0xd1, 0x29, 0x41), Word(0x57, 0x5c, 0x00, 0x6e)) }

  function W10(): State { State(Word(0xd0, 0x14, 0xf9, 0xa8), Word(0xc9, 0xee, 0x25, 0x89), Word(0xe1, 0x3f, 0x0c, 0xc8), Word(0xb6, 0x63, 0x0c, 0xa6)) }

  function RoundConstant(r: nat): bv8 {
    match r
    case 1 => 0x01 case 2 => 0x02 case 3 => 0x04 case 4 => 0x08 case 5 => 0x10
    case 6 => 0x20 case 7 => 0x40 case 8 => 0x80 case 9 => 0x1b case _ => 0x36
  }

  /** Section 5.2: the round constants are the powers of x. */
  lemma {:induction false} RconValues(r: nat)
    requires 1 <= r <= 10
    ensures Rcon(r) == RoundConstant(r)
  {
    if r > 1 { RconValues(r - 1); }
  }

  lemma RoundKey1()
    ensures NextKey(W0(), 0x01) == W1()
  {
  }

  lemma RoundKey2()
    ensures NextKey(W1(), 0x02) == W2()
  {
  }

  lemma RoundKey3()
    ensures NextKey(W2(), 0x04) == W3()
  {
  }

  lemma RoundKey4()
    ensures NextKey(W3(), 0x08) == W4()
  {
  }

  lemma RoundKey5()
    ensures NextKey(W4(), 0x10) == W5()
  {
  }

  lemma RoundKey6()
    ensures NextKey(W5(), 0x20) == W6()
  {
  }

  lemma RoundKey7()
    ensures NextKey(W6(), 0x40) == W7()
  {
  }

  lemma RoundKey8()
    ensures NextKey(W7(), 0x80) == W8()
  {
  }

  lemma RoundKey9()
    ensures NextKey(W8(), 0x1b) == W9()
  {
  }

  lemma RoundKey10()
    ensures NextKey(W9(), 0x36) == W10()
  {
  }

  lemma NextRoundKey(r: nat)
    requires 1 <= r <= 10
    ensures NextKey(ExpandedKey(r - 1), RoundConstant(r)) == ExpandedKey(r)
  {
    hide NextKey, W0, W1, W2, W3, W4, W5, W6, W7, W8, W9, W10;
    if r == 1 { RoundKey1(); }
    if r == 2 { RoundKey2(); }
    if r == 3 { RoundKey3(); }
    if r == 4 { RoundKey4(); }
    if r == 5 { RoundKey5(); }
    if r == 6 { RoundKey6(); }
    if r == 7 { RoundKey7(); }
    if r == 8 { RoundKey8(); }
    if r == 9 { RoundKey9(); }
    if r == 10 { RoundKey10(); }
  }

  /** The key expansion of appendix A.1. */
  lemma {:induction false} KeyExpansionExample(r: nat)
    requires r <= 10
    ensures RoundKey(Key(), r) == ExpandedKey(r)
  {
    hide NextKey;
    if r == 0 {
      FirstRoundKey();
    } else {
      KeyExpansionExample(r - 1);
      RoundKeyFollows(Key(), r);
      RconValues(r);
      NextRoundKey(r);
    }
  }

  lemma FirstRoundKey()
    ensures RoundKey(Key(), 0) == ExpandedKey(0)
  {
  }

  // ---------- Appendix B ----------

  /** The state at the start of round r + 1 of appendix B. */
  function StateAfter(r: nat): State {
    match r
    case 0 => Z0()
    case 1 => Z1()
    case 2 => Z2()
    case 3 => Z3()
    case 4 => Z4()
    case 5 => Z5()
    case 6 => Z6()
    case 7 => Z7()
    case 8 => Z8()
    case _ => Z9()
  }

  function Z0(): State { State(Word(0x19, 0x3d, 0xe3, 0xbe), Word(0xa0, 0xf4, 0xe2, 0x2b), Word(0x9a, 0xc6, 0x8d, 0x2a), Word(0xe9, 0xf8, 0x48, 0x08)) }

  function Z1(): State { State(Word(0xa4, 0x9c, 0x7f, 0xf2), Word(0x68, 0x9f, 0x35, 0x2b), Word(0x6b, 0x5b, 0xea, 0x43), Word(0x02, 0x6a, 0x50, 0x49)) }

  function Z2(): State { State(Word(0xaa, 0x8f, 0x5f, 0x03), Word(0x61, 0xdd, 0xe3, 0xef), Word(0x82, 0xd2, 0x4a, 0xd2), Word(0x68, 0x32, 0x46, 0x9a)) }

  function Z3(): State { State(Word(0x48, 0x6c, 0x4e, 0xee), Word(0x67, 0x1d, 0x9d, 0x0d), Word(0x4d, 0xe3, 0xb1, 0x38), Word(0xd6, 0x5f, 0x58, 0xe7)) }

  function Z4(): State { State(Word(0xe0, 0x92, 0x7f, 0xe8), Word(0xc8, 0x63, 0x63, 0xc0), Word(0xd9, 0xb1, 0x35, 0x50), Word(0x85, 0xb8, 0xbe, 0x01)) }

  function Z5(): State { State(Word(0xf1, 0x00, 0x6f, 0x55), Word(0xc1, 0x92, 0x4c, 0xef), Word(0x7c, 0xc8, 0x8b, 0x32), Word(0x5d, 0xb5, 0xd5, 0x0c)) }

  function Z6(): State { State(Word(0x26, 0x0e, 0x2e, 0x17), Word(0x3d, 0x41, 0xb7, 0x7d), Word(0xe8, 0x64, 0x72, 0xa9), Word(0xfd, 0xd2, 0x8b, 0x25)) }

  function Z7(): State { State(Word(0x5a, 0x41, 0x42, 0xb1), Word(0x19, 0x49, 0xdc, 0x1f), Word(0xa3, 0xe0, 0x19, 0x65), Word(0x7a, 0x8c, 0x04, 0x0c)) }

  function Z8(): State { State(Word(0xea, 0x83, 0x5c, 0xf0), Word(0x04, 0x45, 0x33, 0x2d), Word(0x65, 0x5d, 0x98, 0xad), Word(0x85, 0x96, 0xb0, 0xc5)) }

  function Z9(): State { State(Word(0xeb, 0x40, 0xf2, 0x1e), Word(0x59, 0x2e, 0x38, 0x84), Word(0x8b, 0xa1, 0x13, 0xe7), Word(0x1b, 0xc3, 0x42, 0xd2)) }

  lemma Round1()
    ensures AddRoundKey(MixColumns(ShiftRows(SubBytes(Z0()))), W1()) == Z1()
  {
    var subbed := State(Word(0xd4, 0x27, 0x11, 0xae), Word(0xe0, 0xbf, 0x98, 0xf1), Word(0xb8, 0xb4, 0x5d, 0xe5), Word(0x1e, 0x41, 0x52, 0x30));
    var mixed := State(Word(0x04, 0x66, 0x81, 0xe5), Word(0xe0, 0xcb, 0x19, 0x9a), Word(0x48, 0xf8, 0xd3, 0x7a), Word(0x28, 0x06, 0x26, 0x4c));
    assert SubBytes(Z0()) == subbed;
    assert MixColumns(ShiftRows(subbed)) == mixed;
    assert AddRoundKey(mixed, W1()) == Z1();
  }

  lemma Round2()
    ensures AddRoundKey(MixColumns(ShiftRows(SubBytes(Z1()))), W2()) == Z2()
  {
    var subbed := State(Word(0x49, 0xde, 0xd2, 0x89), Word(0x45, 0xdb, 0x96, 0xf1), Word(0x7f, 0x39, 0x87, 0x1a), Word(0x77, 0x02, 0x53, 0x3b));
    var mixed := State(Word(0x58, 0x4d, 0xca, 0xf1), Word(0x1b, 0x4b, 0x5a, 0xac), Word(0xdb, 0xe7, 0xca, 0xa8), Word(0x1b, 0x6b, 0xb0, 0xe5));
    assert SubBytes(Z1()) == subbed;
    assert MixColumns(ShiftRows(subbed)) == mixed;
    assert AddRoundKey(mixed, W2()) == Z2();
  }

  lemma Round3()
    ensures AddRoundKey(MixColumns(ShiftRows(SubBytes(Z2()))), W3()) == Z3()
  {
    var subbed := State(Word(0xac, 0x73, 0xcf, 0x7b), Word(0xef, 0xc1, 0x11, 0xdf), Word(0x13, 0xb5, 0xd6, 0xb5), Word(0x45, 0x23, 0x5a, 0xb8));
    var mixed := State(Word(0x75, 0xec, 0x09, 0x93), Word(0x20, 0x0b, 0x63, 0x33), Word(0x53, 0xc0, 0xcf, 0x7c), Word(0xbb, 0x25, 0xd0, 0xdc));
    assert SubBytes(Z2()) == subbed;
    assert MixColumns(ShiftRows(subbed)) == mixed;
    assert AddRoundKey(mixed, W3()) == Z3();
  }

  lemma Round4()
    ensures AddRoundKey(MixColumns(ShiftRows(SubBytes(Z3()))), W4()) == Z4()
  {
    var subbed := State(Word(0x52, 0x50, 0x2f, 0x28), Word(0x85, 0xa4, 0x5e, 0xd7), Word(0xe3, 0x11, 0xc8, 0x07), Word(0xf6, 0xcf, 0x6a, 0x94));
    var mixed := State(Word(0x0f, 0xd6, 0xda, 0xa9), Word(0x60, 0x31, 0x38, 0xbf), Word(0x6f, 0xc0, 0x10, 0x6b), Word(0x5e, 0xb3, 0x13, 0x01));
    assert SubBytes(Z3()) == subbed;
    assert MixColumns(ShiftRows(subbed)) == mixed;
    assert AddRoundKey(mixed, W4()) == Z4();
  }

  lemma Round5()
    ensures AddRoundKey(MixColumns(ShiftRows(SubBytes(Z4()))), W5()) == Z5()
  {
    var subbed := State(Word(0xe1, 0x4f, 0xd2, 0x9b), Word(0xe8, 0xfb, 0xfb, 0xba), Word(0x35, 0xc8, 0x96, 0x53), Word(0x97, 0x6c, 0xae, 0x7c));
    var mixed := State(Word(0x25, 0xd1, 0xa9, 0xad), Word(0xbd, 0x11, 0xd1, 0x68), Word(0xb6, 0x3a, 0x33, 0x8e), Word(0x4c, 0x4c, 0xc0, 0xb0));
    assert SubBytes(Z4()) == subbed;
    assert MixColumns(ShiftRows(subbed)) == mixed;
    assert AddRoundKey(mixed, W5()) == Z5();
  }

  lemma Round6()
    ensures AddRoundKey(MixColumns(ShiftRows(SubBytes(Z5()))), W6()) == Z6()
  {
    var subbed := State(Word(0xa1, 0x63, 0xa8, 0xfc), Word(0x78, 0x4f, 0x29, 0xdf), Word(0x10, 0xe8, 0x3d, 0x23), Word(0x4c, 0xd5, 0x03, 0xfe));
    var mixed := State(Word(0x4b, 0x86, 0x8d, 0x6d), Word(0x2c, 0x4a, 0x89, 0x80), Word(0x33, 0x9d, 0xf4, 0xe8), Word(0x37, 0xd2, 0x18, 0xd8));
    assert SubBytes(Z5()) == subbed;
    assert MixColumns(ShiftRows(subbed)) == mixed;
    assert AddRoundKey(mixed, W6()) == Z6();
  }

  lemma Round7()
    ensures AddRoundKey(MixColumns(ShiftRows(SubBytes(Z6()))), W7()) == Z7()
  {
    var subbed := State(Word(0xf7, 0xab, 0x31, 0xf0), Word(0x27, 0x83, 0xa9, 0xff), Word(0x9b, 0x43, 0x40, 0xd3), Word(0x54, 0xb5, 0x3d, 0x3f));
    var mixed := State(Word(0x14, 0x15, 0xb5, 0xbf), Word(0x46, 0x16, 0x15, 0xec), Word(0x27, 0x46, 0x56, 0xd7), Word(0x34, 0x2a, 0xd8, 0x43));
    assert SubBytes(Z6()) == subbed;
    assert MixColumns(ShiftRows(subbed)) == mixed;
    assert AddRoundKey(mixed, W7()) == Z7();
  }

  lemma Round8()
    ensures AddRoundKey(MixColumns(ShiftRows(SubBytes(Z7()))), W8()) == Z8()
  {
    var subbed := State(Word(0xbe, 0x83, 0x2c, 0xc8), Word(0xd4, 0x3b, 0x86, 0xc0), Word(0x0a, 0xe1, 0xd4, 0x4d), Word(0xda, 0x64, 0xf2, 0xfe));
    var mixed := State(Word(0x00, 0x51, 0x2f, 0xd1), Word(0xb1, 0xc8, 0x89, 0xff), Word(0x54, 0x76, 0x6d, 0xcd), Word(0xfa, 0x1b, 0x99, 0xea));
    assert SubBytes(Z7()) == subbed;
    assert MixColumns(ShiftRows(subbed)) == mixed;
    assert AddRoundKey(mixed, W8()) == Z8();
  }

  lemma Round9()
    ensures AddRoundKey(MixColumns(ShiftRows(SubBytes(Z8()))), W9()) == Z9()
  {
    var subbed := State(Word(0x87, 0xec, 0x4a, 0x8c), Word(0xf2, 0x6e, 0xc3, 0xd8), Word(0x4d, 0x4c, 0x46, 0x95), Word(0x97, 0x90, 0xe7, 0xa6));
    var mixed := State(Word(0x47, 0x37, 0x94, 0xed), Word(0x40, 0xd4, 0xe4, 0xa5), Word(0xa3, 0x70, 0x3a, 0xa6), Word(0x4c, 0x9f, 0x42, 0xbc));
    assert SubBytes(Z8()) == subbed;
    assert MixColumns(ShiftRows(subbed)) == mixed;
    assert AddRoundKey(mixed, W9()) == Z9();
  }

  lemma NextRound(r: nat)
    requires 1 <= r <= 9
    ensures AddRoundKey(MixColumns(ShiftRows(SubBytes(StateAfter(r - 1)))), ExpandedKey(r)) == StateAfter(r)
  {
    hide AddRoundKey, MixColumns, ShiftRows, SubBytes, W0, W1, W2, W3, W4, W5, W6, W7, W8, W9, W10, Z0, Z1, Z2, Z3, Z4, Z5, Z6, Z7, Z8, Z9;
    if r == 1 { Round1(); }
    if r == 2 { Round2(); }
    if r == 3 { Round3(); }
    if r == 4 { Round4(); }
    if r == 5 { Round5(); }
    if r == 6 { Round6(); }
    if r == 7 { Round7(); }
    if r == 8 { Round8(); }
    if r == 9 { Round9(); }
  }

  lemma FirstAddition()
    ensures AddRoundKey(FromBlock(Input()), W0()) == Z0()
  {
  }

  lemma LastRound()
    ensures ToBlock(AddRoundKey(ShiftRows(SubBytes(Z9())), W10())) == Output()
  {
    var subbed := State(Word(0xe9, 0x09, 0x89, 0x72), Word(0xcb, 0x31, 0x07, 0x5f), Word(0x3d, 0x32, 0x7d, 0x94), Word(0xaf, 0x2e, 0x2c, 0xb5));
    assert SubBytes(Z9()) == subbed;
  }

  lemma {:induction false} RoundsExample(r: nat)
    requires r <= 9
    ensures Rounds(KeyExpansion(Key()), FromBlock(Input()), r) == StateAfter(r)
  {
    hide AddRoundKey, MixColumns, ShiftRows, SubBytes, RoundKey, FromBlock;
    hide W0, W1, W2, W3, W4, W5, W6, W7, W8, W9, W10, Z0, Z1, Z2, Z3, Z4, Z5, Z6, Z7, Z8, Z9;
    KeyExpansionExample(r);
    assert KeyExpansion(Key())[r] == ExpandedKey(r);
    if r == 0 {
      FirstAddition();
    } else {
      RoundsExample(r - 1);
      NextRound(r);
    }
  }

  /** The cipher example of appendix B. */
  lemma CipherExample()
    ensures Aes.Encrypt(Key(), Input()) == Output()
  {
    hide AddRoundKey, ShiftRows, SubBytes, RoundKey, FromBlock, Rounds, ToBlock, Key, Input, Output, Z9, W10;
    RoundsExample(9);
    KeyExpansionExample(10);
    assert KeyExpansion(Key())[10] == ExpandedKey(10);
    LastRound();
  }
}
