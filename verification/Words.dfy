/**
  The word arithmetic of the hash functions, modulo 2^32 and 2^64.  Every operation has an
  inverse, and each inverse is stated for one operation at a time.
 */
module Words {

  // -------------------------------------------------------------------- 32 bits

  /** The multipliers, all odd. */
  datatype Factor32 = C1 | C2 | A1 | A2 | A3 | A4 | F1 | F2

  function Times32(x: bv32, m: Factor32): bv32 {
    match m
    case C1 => x * 0xcc9e2d51
    case C2 => x * 0x1b873593
    case A1 => x * 0x239b961b
    case A2 => x * 0xab0e9789
    case A3 => x * 0x38b34ae5
    case A4 => x * 0xa1e38b93
    case F1 => x * 0x85ebca6b
    case F2 => x * 0xc2b2ae35
  }

  /** Multiplication by the inverse modulo 2^32. */
  function Over32(x: bv32, m: Factor32): bv32 {
    match m
    case C1 => x * 0xdee13bb1
    case C2 => x * 0x56ed309b
    case A1 => x * 0x89c95413
    case A2 => x * 0xdf130eb9
    case A3 => x * 0x747862ed
    case A4 => x * 0x58d64a9b
    case F1 => x * 0xa5cb9243
    case F2 => x * 0x7ed1b41d
  }

  lemma Products32(x: bv32)
    ensures Over32(x * 0xcc9e2d51, C1) == x
    ensures Over32(x * 0x1b873593, C2) == x
    ensures Over32(x * 0x239b961b, A1) == x
    ensures Over32(x * 0xab0e9789, A2) == x
    ensures Over32(x * 0x38b34ae5, A3) == x
    ensures Over32(x * 0xa1e38b93, A4) == x
    ensures Over32(x * 0x85ebca6b, F1) == x
    ensures Over32(x * 0xc2b2ae35, F2) == x
  {
  }

  lemma UndoTimes32(x: bv32, m: Factor32)
    ensures Over32(Times32(x, m), m) == x
  {
    hide Over32;
    Products32(x);
  }

  function Rotl32(x: bv32, r: nat): bv32
    requires r <= 32
  {
    x.RotateLeft(r)
  }

  /** The rotations used are the shifts they are written as. */
  lemma RotationsAreShifts32(x: bv32)
    ensures Rotl32(x, 13) == (x << 13) | (x >> 19)
    ensures Rotl32(x, 15) == (x << 15) | (x >> 17)
    ensures Rotl32(x, 16) == (x << 16) | (x >> 16)
    ensures Rotl32(x, 17) == (x << 17) | (x >> 15)
    ensures Rotl32(x, 18) == (x << 18) | (x >> 14)
    ensures Rotl32(x, 19) == (x << 19) | (x >> 13)
  {
  }

  function Rotr32(x: bv32, r: nat): bv32
    requires r <= 32
  {
    x.RotateRight(r)
  }

  lemma Rotations32(x: bv32, r: nat)
    requires r <= 32
    ensures Rotr32(x.RotateLeft(r), r) == x
  {
  }

  lemma UndoRotl32(x: bv32, r: nat)
    requires r <= 32
    ensures Rotr32(Rotl32(x, r), r) == x
  {
    hide Rotr32;
    Rotations32(x, r);
  }

  /** A word of the key before it enters the state. */
  function Scramble32(k: bv32, m: Factor32, r: nat, n: Factor32): bv32
    requires r <= 32
  {
    Times32(Rotl32(Times32(k, m), r), n)
  }

  lemma ScrambleInjective32(j: bv32, k: bv32, m: Factor32, r: nat, n: Factor32)
    requires r <= 32 && Scramble32(j, m, r, n) == Scramble32(k, m, r, n)
    ensures j == k
  {
    hide Times32, Over32, Rotl32, Rotr32;
    UndoTimes32(Rotl32(Times32(j, m), r), n);
    UndoTimes32(Rotl32(Times32(k, m), r), n);
    UndoRotl32(Times32(j, m), r);
    UndoRotl32(Times32(k, m), r);
    UndoTimes32(j, m);
    UndoTimes32(k, m);
  }

  /** A word of the state takes in a scrambled word, another word of the state and a constant. */
  function Blend32(x: bv32, r: nat, add: bv32, c: bv32): bv32
    requires r <= 32
  {
    (x.RotateLeft(r) + add) * 5 + c
  }

  function Unblend32(y: bv32, r: nat, add: bv32, c: bv32): bv32
    requires r <= 32
  {
    ((y - c) * 0xcccccccd - add).RotateRight(r)
  }

  lemma Blends32(x: bv32, r: nat, add: bv32, c: bv32)
    requires r <= 32
    ensures Unblend32((x.RotateLeft(r) + add) * 5 + c, r, add, c) == x
  {
  }

  lemma UndoBlend32(x: bv32, r: nat, add: bv32, c: bv32)
    requires r <= 32
    ensures Unblend32(Blend32(x, r, add, c), r, add, c) == x
  {
    hide Unblend32;
    Blends32(x, r, add, c);
  }

  function Xor32(x: bv32, y: bv32): bv32 { x ^ y }

  lemma Xors32(x: bv32, y: bv32)
    ensures Xor32(x ^ y, y) == x && Xor32(x ^ y, x) == y
  {
  }

  lemma UndoXor32(x: bv32, y: bv32)
    ensures Xor32(Xor32(x, y), y) == x && Xor32(Xor32(x, y), x) == y
  {
    assert Xor32(x, y) == x ^ y;
    hide Xor32;
    Xors32(x, y);
  }

  lemma XorCancels32(x: bv32, y: bv32, z: bv32)
    ensures Xor32(x, z) == Xor32(y, z) ==> x == y
    ensures Xor32(z, x) == Xor32(z, y) ==> x == y
  {
    hide Xor32;
    UndoXor32(x, z);
    UndoXor32(y, z);
    UndoXor32(z, x);
    UndoXor32(z, y);
  }

  function Add32(x: bv32, y: bv32): bv32 { x + y }

  function Minus32(x: bv32, y: bv32): bv32 { x - y }

  lemma Sums32(x: bv32, y: bv32)
    ensures Minus32(x + y, y) == x
  {
  }

  lemma UndoAdd32(x: bv32, y: bv32)
    ensures Minus32(Add32(x, y), y) == x
  {
    hide Minus32;
    Sums32(x, y);
  }

  lemma AddCancels32(x: bv32, y: bv32, z: bv32)
    ensures Add32(x, z) == Add32(y, z) ==> x == y
  {
    hide Add32, Minus32;
    UndoAdd32(x, z);
    UndoAdd32(y, z);
  }

  function Shift16(x: bv32): bv32 { x ^ (x >> 16) }

  function Shift13(x: bv32): bv32 { x ^ (x >> 13) }

  function Unshift16(x: bv32): bv32 { x ^ (x >> 16) }

  function Unshift13(x: bv32): bv32 { x ^ (x >> 13) ^ (x >> 26) }

  lemma Shifts32(x: bv32)
    ensures Unshift16(x ^ (x >> 16)) == x && Unshift13(x ^ (x >> 13)) == x
  {
  }

  lemma UndoShifts32(x: bv32)
    ensures Unshift16(Shift16(x)) == x && Unshift13(Shift13(x)) == x
  {
    hide Unshift16, Unshift13;
    Shifts32(x);
  }

  /** The finalisation mix. */
  function Fmix32(h: bv32): bv32 { Shift16(Times32(Shift13(Times32(Shift16(h), F1)), F2)) }

  function Unmix32(h: bv32): bv32 { Unshift16(Over32(Unshift13(Over32(Unshift16(h), F2)), F1)) }

  lemma UndoFmix32(h: bv32)
    ensures Unmix32(Fmix32(h)) == h
  {
    hide Times32, Over32, Shift16, Shift13, Unshift16, Unshift13;
    var a := Times32(Shift16(h), F1);
    var b := Times32(Shift13(a), F2);
    UndoShifts32(h);
    UndoTimes32(Shift16(h), F1);
    UndoShifts32(a);
    UndoTimes32(Shift13(a), F2);
    UndoShifts32(b);
  }


  // -------------------------------------------------------------------- 64 bits

  /** The multipliers, all odd. */
  datatype Factor64 = D1 | D2 | G1 | G2

  function Times64(x: bv64, m: Factor64): bv64 {
    match m
    case D1 => x * 0x87c37b91114253d5
    case D2 => x * 0x4cf5ad432745937f
    case G1 => x * 0xff51afd7ed558ccd
    case G2 => x * 0xc4ceb9fe1a85ec53
  }

  /** Multiplication by the inverse modulo 2^64. */
  function Over64(x: bv64, m: Factor64): bv64 {
    match m
    case D1 => x * 0xa98409e882ce4d7d
    case D2 => x * 0xa81e14edd9de2c7f
    case G1 => x * 0x4f74430c22a54005
    case G2 => x * 0x9cb4b2f8129337db
  }

  lemma Products64(x: bv64)
    ensures Over64(x * 0x87c37b91114253d5, D1) == x
    ensures Over64(x * 0x4cf5ad432745937f, D2) == x
    ensures Over64(x * 0xff51afd7ed558ccd, G1) == x
    ensures Over64(x * 0xc4ceb9fe1a85ec53, G2) == x
  {
  }

  lemma UndoTimes64(x: bv64, m: Factor64)
    ensures Over64(Times64(x, m), m) == x
  {
    hide Over64;
    Products64(x);
  }

  function Rotl64(x: bv64, r: nat): bv64
    requires r <= 64
  {
    x.RotateLeft(r)
  }

  /** The rotations used are the shifts they are written as. */
  lemma RotationsAreShifts64(x: bv64)
    ensures Rotl64(x, 27) == (x << 27) | (x >> 37)
    ensures Rotl64(x, 31) == (x << 31) | (x >> 33)
    ensures Rotl64(x, 33) == (x << 33) | (x >> 31)
  {
  }

  function Rotr64(x: bv64, r: nat): bv64
    requires r <= 64
  {
    x.RotateRight(r)
  }

  lemma Rotations64(x: bv64, r: nat)
    requires r <= 64
    ensures Rotr64(x.RotateLeft(r), r) == x
  {
  }

  lemma UndoRotl64(x: bv64, r: nat)
    requires r <= 64
    ensures Rotr64(Rotl64(x, r), r) == x
  {
    hide Rotr64;
    Rotations64(x, r);
  }

  /** A word of the key before it enters the state. */
  function Scramble64(k: bv64, m: Factor64, r: nat, n: Factor64): bv64
    requires r <= 64
  {
    Times64(Rotl64(Times64(k, m), r), n)
  }

  lemma ScrambleInjective64(j: bv64, k: bv64, m: Factor64, r: nat, n: Factor64)
    requires r <= 64 && Scramble64(j, m, r, n) == Scramble64(k, m, r, n)
    ensures j == k
  {
    hide Times64, Over64, Rotl64, Rotr64;
    UndoTimes64(Rotl64(Times64(j, m), r), n);
    UndoTimes64(Rotl64(Times64(k, m), r), n);
    UndoRotl64(Times64(j, m), r);
    UndoRotl64(Times64(k, m), r);
    UndoTimes64(j, m);
    UndoTimes64(k, m);
  }

  /** A word of the state takes in a scrambled word, another word of the state and a constant. */
  function Blend64(x: bv64, r: nat, add: bv64, c: bv64): bv64
    requires r <= 64
  {
    (x.RotateLeft(r) + add) * 5 + c
  }

  function Unblend64(y: bv64, r: nat, add: bv64, c: bv64): bv64
    requires r <= 64
  {
    ((y - c) * 0xcccccccccccccccd - add).RotateRight(r)
  }

  lemma Blends64(x: bv64, r: nat, add: bv64, c: bv64)
    requires r <= 64
    ensures Unblend64((x.RotateLeft(r) + add) * 5 + c, r, add, c) == x
  {
  }

  lemma UndoBlend64(x: bv64, r: nat, add: bv64, c: bv64)
    requires r <= 64
    ensures Unblend64(Blend64(x, r, add, c), r, add, c) == x
  {
    hide Unblend64;
    Blends64(x, r, add, c);
  }

  function Xor64(x: bv64, y: bv64): bv64 { x ^ y }

  lemma Xors64(x: bv64, y: bv64)
    ensures Xor64(x ^ y, y) == x && Xor64(x ^ y, x) == y
  {
  }

  lemma UndoXor64(x: bv64, y: bv64)
    ensures Xor64(Xor64(x, y), y) == x && Xor64(Xor64(x, y), x) == y
  {
    assert Xor64(x, y) == x ^ y;
    hide Xor64;
    Xors64(x, y);
  }

  lemma XorCancels64(x: bv64, y: bv64, z: bv64)
    ensures Xor64(x, z) == Xor64(y, z) ==> x == y
    ensures Xor64(z, x) == Xor64(z, y) ==> x == y
  {
    hide Xor64;
    UndoXor64(x, z);
    UndoXor64(y, z);
    UndoXor64(z, x);
    UndoXor64(z, y);
  }

  function Add64(x: bv64, y: bv64): bv64 { x + y }

  function Minus64(x: bv64, y: bv64): bv64 { x - y }

  lemma Sums64(x: bv64, y: bv64)
    ensures Minus64(x + y, y) == x
  {
  }

  lemma UndoAdd64(x: bv64, y: bv64)
    ensures Minus64(Add64(x, y), y) == x
  {
    hide Minus64;
    Sums64(x, y);
  }

  lemma AddCancels64(x: bv64, y: bv64, z: bv64)
    ensures Add64(x, z) == Add64(y, z) ==> x == y
  {
    hide Add64, Minus64;
    UndoAdd64(x, z);
    UndoAdd64(y, z);
  }

  function Shift33(x: bv64): bv64 { x ^ (x >> 33) }

  function Unshift33(x: bv64): bv64 { x ^ (x >> 33) }

  lemma Shifts64(x: bv64)
    ensures Unshift33(x ^ (x >> 33)) == x
  {
  }

  lemma UndoShift33(x: bv64)
    ensures Unshift33(Shift33(x)) == x
  {
    hide Unshift33;
    Shifts64(x);
  }

  function Fmix64(k: bv64): bv64 { Shift33(Times64(Shift33(Times64(Shift33(k), G1)), G2)) }

  function Unmix64(k: bv64): bv64 { Unshift33(Over64(Unshift33(Over64(Unshift33(k), G2)), G1)) }

  lemma UndoFmix64(k: bv64)
    ensures Unmix64(Fmix64(k)) == k
  {
    hide Times64, Over64, Shift33, Unshift33;
    var a := Times64(Shift33(k), G1);
    var b := Times64(Shift33(a), G2);
    UndoShift33(k);
    UndoTimes64(Shift33(k), G1);
    UndoShift33(a);
    UndoTimes64(Shift33(a), G2);
    UndoShift33(b);
  }

  // ------------------------------------------------------------- words of bytes

  /** The byte at `i`, or zero past the end. */
  function ByteAt(s: seq<bv8>, i: nat): bv8 { if i < |s| then s[i] else 0 }

  function Pack32(a: bv8, b: bv8, c: bv8, d: bv8): bv32 {
    ((d as bv32) << 24) ^ ((c as bv32) << 16) ^ ((b as bv32) << 8) ^ (a as bv32)
  }

  lemma Unpack32(a: bv8, b: bv8, c: bv8, d: bv8)
    ensures var w := Pack32(a, b, c, d);
            && (w & 0xff) as bv8 == a && ((w >> 8) & 0xff) as bv8 == b
            && ((w >> 16) & 0xff) as bv8 == c && ((w >> 24) & 0xff) as bv8 == d
  {
  }

  /** The first four bytes, least significant first. */
  function Word32(s: seq<bv8>): bv32 { Pack32(ByteAt(s, 0), ByteAt(s, 1), ByteAt(s, 2), ByteAt(s, 3)) }

  /** Short strings of one length are told apart by their word. */
  lemma Word32Injective(s: seq<bv8>, t: seq<bv8>)
    requires |s| == |t| <= 4 && Word32(s) == Word32(t)
    ensures s == t
  {
    hide Pack32;
    Unpack32(ByteAt(s, 0), ByteAt(s, 1), ByteAt(s, 2), ByteAt(s, 3));
    Unpack32(ByteAt(t, 0), ByteAt(t, 1), ByteAt(t, 2), ByteAt(t, 3));
    forall i | 0 <= i < |s| ensures s[i] == t[i] {
      assert ByteAt(s, i) == ByteAt(t, i);
    }
  }

  function Pack64(a: bv8, b: bv8, c: bv8, d: bv8, e: bv8, f: bv8, g: bv8, h: bv8): bv64 {
    ((h as bv64) << 56) ^ ((g as bv64) << 48) ^ ((f as bv64) << 40) ^ ((e as bv64) << 32)
    ^ ((d as bv64) << 24) ^ ((c as bv64) << 16) ^ ((b as bv64) << 8) ^ (a as bv64)
  }

  lemma Unpack64(a: bv8, b: bv8, c: bv8, d: bv8, e: bv8, f: bv8, g: bv8, h: bv8)
    ensures var w := Pack64(a, b, c, d, e, f, g, h);
            && (w & 0xff) as bv8 == a && ((w >> 8) & 0xff) as bv8 == b
            && ((w >> 16) & 0xff) as bv8 == c && ((w >> 24) & 0xff) as bv8 == d
            && ((w >> 32) & 0xff) as bv8 == e && ((w >> 40) & 0xff) as bv8 == f
            && ((w >> 48) & 0xff) as bv8 == g && ((w >> 56) & 0xff) as bv8 == h
  {
  }

  /** The first eight bytes, least significant first. */
  function Word64(s: seq<bv8>): bv64 {
    Pack64(ByteAt(s, 0), ByteAt(s, 1), ByteAt(s, 2), ByteAt(s, 3),
           ByteAt(s, 4), ByteAt(s, 5), ByteAt(s, 6), ByteAt(s, 7))
  }

  lemma Word64Injective(s: seq<bv8>, t: seq<bv8>)
    requires |s| == |t| <= 8 && Word64(s) == Word64(t)
    ensures s == t
  {
    hide Pack64;
    Unpack64(ByteAt(s, 0), ByteAt(s, 1), ByteAt(s, 2), ByteAt(s, 3),
             ByteAt(s, 4), ByteAt(s, 5), ByteAt(s, 6), ByteAt(s, 7));
    Unpack64(ByteAt(t, 0), ByteAt(t, 1), ByteAt(t, 2), ByteAt(t, 3),
             ByteAt(t, 4), ByteAt(t, 5), ByteAt(t, 6), ByteAt(t, 7));
    forall i | 0 <= i < |s| ensures s[i] == t[i] {
      assert ByteAt(s, i) == ByteAt(t, i);
    }
  }
}
