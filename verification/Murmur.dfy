/**
  MurmurHash3: the three hash functions as in-place computations, each proved equal to a fold
  over the blocks of the key, and what no choice of key and seed can make them do.
 */
module Murmur {
  import opened Words

  // ------------------------------------------------------------ block hashing

  /** A hash function: the size of a block, what a block does to the state, what the rest of the
      key does, and the finalisation, which also takes the length. */
  datatype Scheme<!H> = Scheme(size: nat, mix: (H, seq<bv8>) -> H, tail: (H, seq<bv8>) -> H, finish: (H, nat) -> H)

  /** What remains to be done for the rest `key` of a key of length `n`, in state `h`. */
  function Absorb<H>(s: Scheme<H>, h: H, key: seq<bv8>, n: nat): H
    requires s.size > 0
  {
    if |key| < s.size then s.finish(s.tail(h, key), n)
    else Absorb(s, s.mix(h, key[..s.size]), key[s.size..], n)
  }

  function Digest<H>(s: Scheme<H>, h: H, key: seq<bv8>): H
    requires s.size > 0
  {
    Absorb(s, h, key, |key|)
  }

  /** Every step permutes the states, and is injective in the bytes it takes in. */
  ghost predicate Lossless<H(!new)>(s: Scheme<H>) {
    && s.size > 0
    && (forall h, g, b | |b| == s.size && s.mix(h, b) == s.mix(g, b) :: h == g)
    && (forall h, b, c | |b| == |c| == s.size && s.mix(h, b) == s.mix(h, c) :: b == c)
    && (forall h, g, b | |b| < s.size && s.tail(h, b) == s.tail(g, b) :: h == g)
    && (forall h, b, c | |b| == |c| < s.size && s.tail(h, b) == s.tail(h, c) :: b == c)
    && (forall h, g, n | s.finish(h, n) == s.finish(g, n) :: h == g)
  }

  /** Different states are never merged by the rest of a key. */
  lemma {:induction false} NeverMerges<H(!new)>(s: Scheme<H>, h: H, g: H, key: seq<bv8>, n: nat)
    requires Lossless(s) && Absorb(s, h, key, n) == Absorb(s, g, key, n)
    ensures h == g
    decreases |key|
  {
    if |key| >= s.size {
      NeverMerges(s, s.mix(h, key[..s.size]), s.mix(g, key[..s.size]), key[s.size..], n);
    }
  }

  /** The keys have one length and agree outside block `i` (the last block may be short). */
  predicate DifferInBlock(size: nat, key: seq<bv8>, other: seq<bv8>, i: nat) {
    && |key| == |other| && key != other
    && forall j :: 0 <= j < |key| && (j < i * size || j >= (i + 1) * size) ==> key[j] == other[j]
  }

  /** Keys that differ in one block only, or in the tail only, never collide. */
  lemma {:induction false} OneBlockNeverCollides<H(!new)>(s: Scheme<H>, h: H, key: seq<bv8>, other: seq<bv8>, i: nat,
                                                          n: nat)
    requires Lossless(s) && DifferInBlock(s.size, key, other, i)
    ensures Absorb(s, h, key, n) != Absorb(s, h, other, n)
    decreases i
  {
    if |key| >= s.size {
      var k, r := key[..s.size], key[s.size..];
      var k', r' := other[..s.size], other[s.size..];
      assert key == k + r && other == k' + r';
      if i == 0 {
        assert r == r';
        if Absorb(s, h, key, n) == Absorb(s, h, other, n) {
          NeverMerges(s, s.mix(h, k), s.mix(h, k'), r, n);
        }
      } else {
        BlockOf(s.size, i);
        assert k == k';
        forall j | 0 <= j < |r| && (j < (i - 1) * s.size || j >= i * s.size) ensures r[j] == r'[j] {
          assert r[j] == key[j + s.size] && r'[j] == other[j + s.size];
        }
        OneBlockNeverCollides(s, s.mix(h, k), r, r', i - 1, n);
      }
    }
  }

  lemma BlockOf(size: nat, i: nat)
    requires i > 0
    ensures i * size == (i - 1) * size + size && (i + 1) * size == i * size + size && i * size >= size
  {
    assert (i - 1) * size >= 0;
  }

  /** The length as it enters the state. */
  function Length32(n: nat): bv32 { (n % 0x1_0000_0000) as bv32 }
  function Length64(n: nat): bv64 { (n % 0x1_0000_0000_0000_0000) as bv64 }

  /** The bytes of a string from `lo` to `hi`, as far as there are any. */
  function Part(t: seq<bv8>, lo: nat, hi: nat): seq<bv8>
    requires lo <= hi
  {
    t[if lo < |t| then lo else |t| .. if hi < |t| then hi else |t|]
  }

  // ------------------------------------------------------- words of the state

  /** A word of the state takes in a string of at most 4 bytes, if there are any. */
  function TakeIn32(h: bv32, t: seq<bv8>, m: Factor32, r: nat, n: Factor32): bv32
    requires r <= 32
  {
    if t == [] then h else Xor32(h, Scramble32(Word32(t), m, r, n))
  }

  /** Neither the word nor the string is lost. */
  lemma TakeInKeeps32(h: bv32, g: bv32, s: seq<bv8>, t: seq<bv8>, m: Factor32, r: nat, n: Factor32)
    requires r <= 32 && |s| == |t| <= 4 && TakeIn32(h, s, m, r, n) == TakeIn32(g, t, m, r, n)
    ensures (s == t ==> h == g) && (h == g ==> s == t)
  {
    hide Scramble32, Word32, Xor32;
    var j, k := Scramble32(Word32(s), m, r, n), Scramble32(Word32(t), m, r, n);
    XorCancels32(h, g, k);
    XorCancels32(j, k, h);
    if h == g && s != [] {
      ScrambleInjective32(Word32(s), Word32(t), m, r, n);
      Word32Injective(s, t);
    }
  }

  lemma FmixInjective32(h: bv32, g: bv32)
    requires Fmix32(h) == Fmix32(g)
    ensures h == g
  {
    hide Fmix32, Unmix32;
    UndoFmix32(h);
    UndoFmix32(g);
  }

  lemma BlendInjective32(x: bv32, y: bv32, r: nat, add: bv32, c: bv32)
    requires r <= 32 && Blend32(x, r, add, c) == Blend32(y, r, add, c)
    ensures x == y
  {
    hide Blend32, Unblend32;
    UndoBlend32(x, r, add, c);
    UndoBlend32(y, r, add, c);
  }

  /** A word of the state takes in a string of at most 8 bytes, if there are any. */
  function TakeIn64(h: bv64, t: seq<bv8>, m: Factor64, r: nat, n: Factor64): bv64
    requires r <= 64
  {
    if t == [] then h else Xor64(h, Scramble64(Word64(t), m, r, n))
  }

  /** Neither the word nor the string is lost. */
  lemma TakeInKeeps64(h: bv64, g: bv64, s: seq<bv8>, t: seq<bv8>, m: Factor64, r: nat, n: Factor64)
    requires r <= 64 && |s| == |t| <= 8 && TakeIn64(h, s, m, r, n) == TakeIn64(g, t, m, r, n)
    ensures (s == t ==> h == g) && (h == g ==> s == t)
  {
    hide Scramble64, Word64, Xor64;
    var j, k := Scramble64(Word64(s), m, r, n), Scramble64(Word64(t), m, r, n);
    XorCancels64(h, g, k);
    XorCancels64(j, k, h);
    if h == g && s != [] {
      ScrambleInjective64(Word64(s), Word64(t), m, r, n);
      Word64Injective(s, t);
    }
  }

  lemma FmixInjective64(h: bv64, g: bv64)
    requires Fmix64(h) == Fmix64(g)
    ensures h == g
  {
    hide Fmix64, Unmix64;
    UndoFmix64(h);
    UndoFmix64(g);
  }

  lemma BlendInjective64(x: bv64, y: bv64, r: nat, add: bv64, c: bv64)
    requires r <= 64 && Blend64(x, r, add, c) == Blend64(y, r, add, c)
    ensures x == y
  {
    hide Blend64, Unblend64;
    UndoBlend64(x, r, add, c);
    UndoBlend64(y, r, add, c);
  }

  // --------------------------------------------------------------- x86, 32 bits

  function Mix_x86_32(h: bv32, b: seq<bv8>): bv32 { Blend32(TakeIn32(h, b, C1, 15, C2), 13, 0, 0xe6546b64) }

  function Tail_x86_32(h: bv32, t: seq<bv8>): bv32 { TakeIn32(h, t, C1, 15, C2) }

  function Finish_x86_32(h: bv32, n: nat): bv32 { Fmix32(Xor32(h, Length32(n))) }

  function X86_32(): Scheme<bv32> { Scheme(4, Mix_x86_32, Tail_x86_32, Finish_x86_32) }

  lemma Mix_x86_32_Facts(h: bv32, g: bv32, b: seq<bv8>, c: seq<bv8>)
    requires |b| == |c| == 4 && Mix_x86_32(h, b) == Mix_x86_32(g, c)
    ensures (b == c ==> h == g) && (h == g ==> b == c)
  {
    hide Blend32, TakeIn32;
    BlendInjective32(TakeIn32(h, b, C1, 15, C2), TakeIn32(g, c, C1, 15, C2), 13, 0, 0xe6546b64);
    TakeInKeeps32(h, g, b, c, C1, 15, C2);
  }

  lemma Lossless_x86_32()
    ensures Lossless(X86_32())
  {
    hide Mix_x86_32, Fmix32, TakeIn32, Length32, Xor32;
    forall h, g, b, c | |b| == |c| == 4 && Mix_x86_32(h, b) == Mix_x86_32(g, c)
      ensures (b == c ==> h == g) && (h == g ==> b == c)
    {
      Mix_x86_32_Facts(h, g, b, c);
    }
    forall h, g, b, c | |b| == |c| < 4 && Tail_x86_32(h, b) == Tail_x86_32(g, c)
      ensures (b == c ==> h == g) && (h == g ==> b == c)
    {
      TakeInKeeps32(h, g, b, c, C1, 15, C2);
    }
    forall h, g, n | Finish_x86_32(h, n) == Finish_x86_32(g, n) ensures h == g {
      FmixInjective32(Xor32(h, Length32(n)), Xor32(g, Length32(n)));
      XorCancels32(h, g, Length32(n));
    }
  }

  // -------------------------------------------------------------- x86, 128 bits

  datatype Quad = Quad(h1: bv32, h2: bv32, h3: bv32, h4: bv32)

  function Mix_x86_128(q: Quad, b: seq<bv8>): Quad {
    var h1 := Blend32(TakeIn32(q.h1, Part(b, 0, 4), A1, 15, A2), 19, q.h2, 0x561ccd1b);
    var h2 := Blend32(TakeIn32(q.h2, Part(b, 4, 8), A2, 16, A3), 17, q.h3, 0x0bcaa747);
    var h3 := Blend32(TakeIn32(q.h3, Part(b, 8, 12), A3, 17, A4), 15, q.h4, 0x96cd1c35);
    var h4 := Blend32(TakeIn32(q.h4, Part(b, 12, 16), A4, 18, A1), 13, h1, 0x32ac3b17);
    Quad(h1, h2, h3, h4)
  }

  function Tail_x86_128(q: Quad, t: seq<bv8>): Quad {
    Quad(TakeIn32(q.h1, Part(t, 0, 4), A1, 15, A2), TakeIn32(q.h2, Part(t, 4, 8), A2, 16, A3),
         TakeIn32(q.h3, Part(t, 8, 12), A3, 17, A4), TakeIn32(q.h4, Part(t, 12, 16), A4, 18, A1))
  }

  /** Every word of the state takes in all the others. */
  function Spread32(q: Quad): Quad {
    var h1 := Add32(Add32(Add32(q.h1, q.h2), q.h3), q.h4);
    Quad(h1, Add32(q.h2, h1), Add32(q.h3, h1), Add32(q.h4, h1))
  }

  function FmixAll32(q: Quad): Quad { Quad(Fmix32(q.h1), Fmix32(q.h2), Fmix32(q.h3), Fmix32(q.h4)) }

  function XorAll32(q: Quad, x: bv32): Quad { Quad(Xor32(q.h1, x), Xor32(q.h2, x), Xor32(q.h3, x), Xor32(q.h4, x)) }

  function Finish_x86_128(q: Quad, n: nat): Quad { Spread32(FmixAll32(Spread32(XorAll32(q, Length32(n))))) }

  function X86_128(): Scheme<Quad> { Scheme(16, Mix_x86_128, Tail_x86_128, Finish_x86_128) }

  /** Strings of one length are equal exactly when their four words are. */
  lemma FourParts(b: seq<bv8>, c: seq<bv8>)
    requires |b| == |c| <= 16
    ensures |Part(b, 0, 4)| == |Part(c, 0, 4)| <= 4 && |Part(b, 4, 8)| == |Part(c, 4, 8)| <= 4
    ensures |Part(b, 8, 12)| == |Part(c, 8, 12)| <= 4 && |Part(b, 12, 16)| == |Part(c, 12, 16)| <= 4
    ensures (&& Part(b, 0, 4) == Part(c, 0, 4) && Part(b, 4, 8) == Part(c, 4, 8)
             && Part(b, 8, 12) == Part(c, 8, 12) && Part(b, 12, 16) == Part(c, 12, 16)) ==> b == c
  {
    assert b == Part(b, 0, 4) + Part(b, 4, 8) + Part(b, 8, 12) + Part(b, 12, 16);
    assert c == Part(c, 0, 4) + Part(c, 4, 8) + Part(c, 8, 12) + Part(c, 12, 16);
  }

  lemma Tail_x86_128_Facts(p: Quad, q: Quad, b: seq<bv8>, c: seq<bv8>)
    requires |b| == |c| <= 16 && Tail_x86_128(p, b) == Tail_x86_128(q, c)
    ensures (b == c ==> p == q) && (p == q ==> b == c)
  {
    hide TakeIn32, Part;
    FourParts(b, c);
    TakeInKeeps32(p.h1, q.h1, Part(b, 0, 4), Part(c, 0, 4), A1, 15, A2);
    TakeInKeeps32(p.h2, q.h2, Part(b, 4, 8), Part(c, 4, 8), A2, 16, A3);
    TakeInKeeps32(p.h3, q.h3, Part(b, 8, 12), Part(c, 8, 12), A3, 17, A4);
    TakeInKeeps32(p.h4, q.h4, Part(b, 12, 16), Part(c, 12, 16), A4, 18, A1);
  }

  /** A block can be undone word by word, the last first. */
  lemma Mix_x86_128_Facts(p: Quad, q: Quad, b: seq<bv8>, c: seq<bv8>)
    requires |b| == |c| == 16 && Mix_x86_128(p, b) == Mix_x86_128(q, c)
    ensures (b == c ==> p == q) && (p == q ==> b == c)
  {
    hide TakeIn32, Blend32, Part;
    FourParts(b, c);
    var p4, q4 := TakeIn32(p.h4, Part(b, 12, 16), A4, 18, A1), TakeIn32(q.h4, Part(c, 12, 16), A4, 18, A1);
    BlendInjective32(p4, q4, 13, Mix_x86_128(p, b).h1, 0x32ac3b17);
    TakeInKeeps32(p.h4, q.h4, Part(b, 12, 16), Part(c, 12, 16), A4, 18, A1);
    if b == c || p == q {
      var p3, q3 := TakeIn32(p.h3, Part(b, 8, 12), A3, 17, A4), TakeIn32(q.h3, Part(c, 8, 12), A3, 17, A4);
      BlendInjective32(p3, q3, 15, p.h4, 0x96cd1c35);
      TakeInKeeps32(p.h3, q.h3, Part(b, 8, 12), Part(c, 8, 12), A3, 17, A4);
      var p2, q2 := TakeIn32(p.h2, Part(b, 4, 8), A2, 16, A3), TakeIn32(q.h2, Part(c, 4, 8), A2, 16, A3);
      BlendInjective32(p2, q2, 17, p.h3, 0x0bcaa747);
      TakeInKeeps32(p.h2, q.h2, Part(b, 4, 8), Part(c, 4, 8), A2, 16, A3);
      var p1, q1 := TakeIn32(p.h1, Part(b, 0, 4), A1, 15, A2), TakeIn32(q.h1, Part(c, 0, 4), A1, 15, A2);
      BlendInjective32(p1, q1, 19, p.h2, 0x561ccd1b);
      TakeInKeeps32(p.h1, q.h1, Part(b, 0, 4), Part(c, 0, 4), A1, 15, A2);
    }
  }

  lemma SpreadInjective32(p: Quad, q: Quad)
    requires Spread32(p) == Spread32(q)
    ensures p == q
  {
    hide Add32;
    var h1 := Spread32(p).h1;
    AddCancels32(p.h2, q.h2, h1);
    AddCancels32(p.h3, q.h3, h1);
    AddCancels32(p.h4, q.h4, h1);
    AddCancels32(Add32(Add32(p.h1, p.h2), p.h3), Add32(Add32(q.h1, p.h2), p.h3), p.h4);
    AddCancels32(Add32(p.h1, p.h2), Add32(q.h1, p.h2), p.h3);
    AddCancels32(p.h1, q.h1, p.h2);
  }

  lemma FinishInjective_x86_128(p: Quad, q: Quad, n: nat)
    requires Finish_x86_128(p, n) == Finish_x86_128(q, n)
    ensures p == q
  {
    hide Spread32, Fmix32, Xor32, Length32;
    var x := Length32(n);
    var a, b := Spread32(XorAll32(p, x)), Spread32(XorAll32(q, x));
    SpreadInjective32(FmixAll32(a), FmixAll32(b));
    FmixInjective32(a.h1, b.h1);
    FmixInjective32(a.h2, b.h2);
    FmixInjective32(a.h3, b.h3);
    FmixInjective32(a.h4, b.h4);
    SpreadInjective32(XorAll32(p, x), XorAll32(q, x));
    XorCancels32(p.h1, q.h1, x);
    XorCancels32(p.h2, q.h2, x);
    XorCancels32(p.h3, q.h3, x);
    XorCancels32(p.h4, q.h4, x);
  }

  lemma Lossless_x86_128()
    ensures Lossless(X86_128())
  {
    hide Mix_x86_128, Tail_x86_128, Finish_x86_128;
    forall p, q, b, c | |b| == |c| == 16 && Mix_x86_128(p, b) == Mix_x86_128(q, c)
      ensures (b == c ==> p == q) && (p == q ==> b == c)
    {
      Mix_x86_128_Facts(p, q, b, c);
    }
    forall p, q, b, c | |b| == |c| < 16 && Tail_x86_128(p, b) == Tail_x86_128(q, c)
      ensures (b == c ==> p == q) && (p == q ==> b == c)
    {
      Tail_x86_128_Facts(p, q, b, c);
    }
    forall p, q, n | Finish_x86_128(p, n) == Finish_x86_128(q, n) ensures p == q {
      FinishInjective_x86_128(p, q, n);
    }
  }

  // -------------------------------------------------------------- x64, 128 bits

  datatype Pair = Pair(h1: bv64, h2: bv64)

  function Mix_x64_128(p: Pair, b: seq<bv8>): Pair {
    var h1 := Blend64(TakeIn64(p.h1, Part(b, 0, 8), D1, 31, D2), 27, p.h2, 0x52dce729);
    var h2 := Blend64(TakeIn64(p.h2, Part(b, 8, 16), D2, 33, D1), 31, h1, 0x38495ab5);
    Pair(h1, h2)
  }

  function Tail_x64_128(p: Pair, t: seq<bv8>): Pair {
    Pair(TakeIn64(p.h1, Part(t, 0, 8), D1, 31, D2), TakeIn64(p.h2, Part(t, 8, 16), D2, 33, D1))
  }

  function Spread64(p: Pair): Pair {
    var h1 := Add64(p.h1, p.h2);
    Pair(h1, Add64(p.h2, h1))
  }

  function Finish_x64_128(p: Pair, n: nat): Pair {
    var s := Spread64(Pair(Xor64(p.h1, Length64(n)), Xor64(p.h2, Length64(n))));
    Spread64(Pair(Fmix64(s.h1), Fmix64(s.h2)))
  }

  function X64_128(): Scheme<Pair> { Scheme(16, Mix_x64_128, Tail_x64_128, Finish_x64_128) }

  lemma TwoParts(b: seq<bv8>, c: seq<bv8>)
    requires |b| == |c| <= 16
    ensures |Part(b, 0, 8)| == |Part(c, 0, 8)| <= 8 && |Part(b, 8, 16)| == |Part(c, 8, 16)| <= 8
    ensures Part(b, 0, 8) == Part(c, 0, 8) && Part(b, 8, 16) == Part(c, 8, 16) ==> b == c
  {
    assert b == Part(b, 0, 8) + Part(b, 8, 16);
    assert c == Part(c, 0, 8) + Part(c, 8, 16);
  }

  lemma Tail_x64_128_Facts(p: Pair, q: Pair, b: seq<bv8>, c: seq<bv8>)
    requires |b| == |c| <= 16 && Tail_x64_128(p, b) == Tail_x64_128(q, c)
    ensures (b == c ==> p == q) && (p == q ==> b == c)
  {
    hide TakeIn64, Part;
    TwoParts(b, c);
    TakeInKeeps64(p.h1, q.h1, Part(b, 0, 8), Part(c, 0, 8), D1, 31, D2);
    TakeInKeeps64(p.h2, q.h2, Part(b, 8, 16), Part(c, 8, 16), D2, 33, D1);
  }

  lemma Mix_x64_128_Facts(p: Pair, q: Pair, b: seq<bv8>, c: seq<bv8>)
    requires |b| == |c| == 16 && Mix_x64_128(p, b) == Mix_x64_128(q, c)
    ensures (b == c ==> p == q) && (p == q ==> b == c)
  {
    hide TakeIn64, Blend64, Part;
    TwoParts(b, c);
    var p2, q2 := TakeIn64(p.h2, Part(b, 8, 16), D2, 33, D1), TakeIn64(q.h2, Part(c, 8, 16), D2, 33, D1);
    BlendInjective64(p2, q2, 31, Mix_x64_128(p, b).h1, 0x38495ab5);
    TakeInKeeps64(p.h2, q.h2, Part(b, 8, 16), Part(c, 8, 16), D2, 33, D1);
    if b == c || p == q {
      var p1, q1 := TakeIn64(p.h1, Part(b, 0, 8), D1, 31, D2), TakeIn64(q.h1, Part(c, 0, 8), D1, 31, D2);
      BlendInjective64(p1, q1, 27, p.h2, 0x52dce729);
      TakeInKeeps64(p.h1, q.h1, Part(b, 0, 8), Part(c, 0, 8), D1, 31, D2);
    }
  }

  lemma SpreadInjective64(p: Pair, q: Pair)
    requires Spread64(p) == Spread64(q)
    ensures p == q
  {
    hide Add64;
    AddCancels64(p.h2, q.h2, Spread64(p).h1);
    AddCancels64(p.h1, q.h1, p.h2);
  }

  lemma FinishInjective_x64_128(p: Pair, q: Pair, n: nat)
    requires Finish_x64_128(p, n) == Finish_x64_128(q, n)
    ensures p == q
  {
    hide Spread64, Fmix64, Xor64, Length64;
    var x := Length64(n);
    var a, b := Pair(Xor64(p.h1, x), Xor64(p.h2, x)), Pair(Xor64(q.h1, x), Xor64(q.h2, x));
    var s, t := Spread64(a), Spread64(b);
    SpreadInjective64(Pair(Fmix64(s.h1), Fmix64(s.h2)), Pair(Fmix64(t.h1), Fmix64(t.h2)));
    FmixInjective64(s.h1, t.h1);
    FmixInjective64(s.h2, t.h2);
    SpreadInjective64(a, b);
    XorCancels64(p.h1, q.h1, x);
    XorCancels64(p.h2, q.h2, x);
  }

  lemma Lossless_x64_128()
    ensures Lossless(X64_128())
  {
    hide Mix_x64_128, Tail_x64_128, Finish_x64_128;
    forall p, q, b, c | |b| == |c| == 16 && Mix_x64_128(p, b) == Mix_x64_128(q, c)
      ensures (b == c ==> p == q) && (p == q ==> b == c)
    {
      Mix_x64_128_Facts(p, q, b, c);
    }
    forall p, q, b, c | |b| == |c| < 16 && Tail_x64_128(p, b) == Tail_x64_128(q, c)
      ensures (b == c ==> p == q) && (p == q ==> b == c)
    {
      Tail_x64_128_Facts(p, q, b, c);
    }
    forall p, q, n | Finish_x64_128(p, n) == Finish_x64_128(q, n) ensures p == q {
      FinishInjective_x64_128(p, q, n);
    }
  }

  // ------------------------------------------------------------- the functions

  function Hash_x86_32(key: seq<bv8>, seed: bv32): bv32 { Digest(X86_32(), seed, key) }

  function Hash_x86_128(key: seq<bv8>, seed: bv32): Quad { Digest(X86_128(), Quad(seed, seed, seed, seed), key) }

  function Hash_x64_128(key: seq<bv8>, seed: bv32): Pair {
    Digest(X64_128(), Pair(seed as bv64, seed as bv64), key)
  }

  /** For every key, different seeds give different hashes. */
  lemma SeedsNeverCollide(key: seq<bv8>, seed: bv32, other: bv32)
    requires seed != other
    ensures Hash_x86_32(key, seed) != Hash_x86_32(key, other)
    ensures Hash_x86_128(key, seed) != Hash_x86_128(key, other)
    ensures Hash_x64_128(key, seed) != Hash_x64_128(key, other)
  {
    hide Lossless, Absorb;
    Lossless_x86_32();
    Lossless_x86_128();
    Lossless_x64_128();
    if Hash_x86_32(key, seed) == Hash_x86_32(key, other) { NeverMerges(X86_32(), seed, other, key, |key|); }
    var q, r := Quad(seed, seed, seed, seed), Quad(other, other, other, other);
    if Hash_x86_128(key, seed) == Hash_x86_128(key, other) { NeverMerges(X86_128(), q, r, key, |key|); }
    var a, b := seed as bv64, other as bv64;
    assert a != b;
    if Hash_x64_128(key, seed) == Hash_x64_128(key, other) {
      NeverMerges(X64_128(), Pair(a, a), Pair(b, b), key, |key|);
    }
  }

  /** For every seed, keys of one length that differ in one block only, or in the tail only,
      have different hashes. */
  lemma KeysNeverCollide(key: seq<bv8>, other: seq<bv8>, i: nat, seed: bv32)
    ensures DifferInBlock(4, key, other, i) ==> Hash_x86_32(key, seed) != Hash_x86_32(other, seed)
    ensures DifferInBlock(16, key, other, i) ==> Hash_x86_128(key, seed) != Hash_x86_128(other, seed)
    ensures DifferInBlock(16, key, other, i) ==> Hash_x64_128(key, seed) != Hash_x64_128(other, seed)
  {
    hide Lossless, Absorb;
    Lossless_x86_32();
    Lossless_x86_128();
    Lossless_x64_128();
    if DifferInBlock(4, key, other, i) { OneBlockNeverCollides(X86_32(), seed, key, other, i, |key|); }
    if DifferInBlock(16, key, other, i) {
      OneBlockNeverCollides(X86_128(), Quad(seed, seed, seed, seed), key, other, i, |key|);
      OneBlockNeverCollides(X64_128(), Pair(seed as bv64, seed as bv64), key, other, i, |key|);
    }
  }

  method MurmurHash3_x86_32(key: seq<bv8>, seed: bv32) returns (h1: bv32)
    ensures h1 == Hash_x86_32(key, seed)
  {
    hide Times32, Rotl32, Word32, Xor32, Fmix32, Length32;
    var nblocks := |key| / 4;
    h1 := seed;
    var i := 0;
    assert key[0..] == key;
    while i < nblocks
      invariant i <= nblocks
      invariant Absorb(X86_32(), h1, key[4 * i..], |key|) == Hash_x86_32(key, seed)
    {
      var rest := key[4 * i..];
      assert rest[4..] == key[4 * (i + 1)..];
      var k1 := Word32(rest[..4]);
      k1 := Times32(k1, C1);
      k1 := Rotl32(k1, 15);
      k1 := Times32(k1, C2);
      h1 := Xor32(h1, k1);
      h1 := Blend32(h1, 13, 0, 0xe6546b64);
      i := i + 1;
    }
    var tail := key[4 * nblocks..];
    if tail != [] {
      var k1 := Word32(tail);
      k1 := Times32(k1, C1);
      k1 := Rotl32(k1, 15);
      k1 := Times32(k1, C2);
      h1 := Xor32(h1, k1);
    }
    h1 := Xor32(h1, Length32(|key|));
    h1 := Fmix32(h1);
  }

  method MurmurHash3_x86_128(key: seq<bv8>, seed: bv32) returns (out: Quad)
    ensures out == Hash_x86_128(key, seed)
  {
    hide Times32, Rotl32, Word32, Xor32, Fmix32, Length32, Blend32, Add32, Part, Mix_x86_128, Tail_x86_128;
    var nblocks := |key| / 16;
    var h1, h2, h3, h4 := seed, seed, seed, seed;
    var i := 0;
    assert key[0..] == key;
    while i < nblocks
      invariant i <= nblocks
      invariant Absorb(X86_128(), Quad(h1, h2, h3, h4), key[16 * i..], |key|) == Hash_x86_128(key, seed)
    {
      var rest := key[16 * i..];
      assert rest[16..] == key[16 * (i + 1)..];
      var block := rest[..16];
      FullParts(block);
      h1, h2, h3, h4 := MixBlock_x86_128(h1, h2, h3, h4, block);
      i := i + 1;
    }
    var tail := key[16 * nblocks..];
    h1, h2, h3, h4 := MixTail_x86_128(h1, h2, h3, h4, tail);
    var len := Length32(|key|);
    h1, h2, h3, h4 := Xor32(h1, len), Xor32(h2, len), Xor32(h3, len), Xor32(h4, len);
    h1 := Add32(h1, h2);
    h1 := Add32(h1, h3);
    h1 := Add32(h1, h4);
    h2, h3, h4 := Add32(h2, h1), Add32(h3, h1), Add32(h4, h1);
    h1, h2, h3, h4 := Fmix32(h1), Fmix32(h2), Fmix32(h3), Fmix32(h4);
    h1 := Add32(h1, h2);
    h1 := Add32(h1, h3);
    h1 := Add32(h1, h4);
    h2, h3, h4 := Add32(h2, h1), Add32(h3, h1), Add32(h4, h1);
    out := Quad(h1, h2, h3, h4);
  }

  /** The words of a full block are not empty. */
  lemma FullParts(b: seq<bv8>)
    requires |b| == 16
    ensures Part(b, 0, 4) != [] && Part(b, 4, 8) != [] && Part(b, 8, 12) != [] && Part(b, 12, 16) != []
    ensures Part(b, 0, 8) != [] && Part(b, 8, 16) != []
  {
  }

  method MixBlock_x86_128(g1: bv32, g2: bv32, g3: bv32, g4: bv32, b: seq<bv8>)
    returns (h1: bv32, h2: bv32, h3: bv32, h4: bv32)
    requires |b| == 16
    ensures Quad(h1, h2, h3, h4) == Mix_x86_128(Quad(g1, g2, g3, g4), b)
  {
    hide Times32, Rotl32, Word32, Xor32, Blend32, Part;
    FullParts(b);
    h1, h2, h3, h4 := g1, g2, g3, g4;
    var k1, k2, k3, k4 := Word32(Part(b, 0, 4)), Word32(Part(b, 4, 8)), Word32(Part(b, 8, 12)), Word32(Part(b, 12, 16));
    k1 := Times32(k1, A1);
    k1 := Rotl32(k1, 15);
    k1 := Times32(k1, A2);
    h1 := Xor32(h1, k1);
    h1 := Blend32(h1, 19, h2, 0x561ccd1b);
    k2 := Times32(k2, A2);
    k2 := Rotl32(k2, 16);
    k2 := Times32(k2, A3);
    h2 := Xor32(h2, k2);
    h2 := Blend32(h2, 17, h3, 0x0bcaa747);
    k3 := Times32(k3, A3);
    k3 := Rotl32(k3, 17);
    k3 := Times32(k3, A4);
    h3 := Xor32(h3, k3);
    h3 := Blend32(h3, 15, h4, 0x96cd1c35);
    k4 := Times32(k4, A4);
    k4 := Rotl32(k4, 18);
    k4 := Times32(k4, A1);
    h4 := Xor32(h4, k4);
    h4 := Blend32(h4, 13, h1, 0x32ac3b17);
  }

  /** The tail, its last word first, each word only when the tail reaches it. */
  method MixTail_x86_128(g1: bv32, g2: bv32, g3: bv32, g4: bv32, t: seq<bv8>)
    returns (h1: bv32, h2: bv32, h3: bv32, h4: bv32)
    requires |t| < 16
    ensures Quad(h1, h2, h3, h4) == Tail_x86_128(Quad(g1, g2, g3, g4), t)
  {
    hide Times32, Rotl32, Word32, Xor32;
    h1, h2, h3, h4 := g1, g2, g3, g4;
    if |t| > 12 {
      h4 := Xor32(h4, Times32(Rotl32(Times32(Word32(Part(t, 12, 16)), A4), 18), A1));
    }
    if |t| > 8 {
      h3 := Xor32(h3, Times32(Rotl32(Times32(Word32(Part(t, 8, 12)), A3), 17), A4));
    }
    if |t| > 4 {
      h2 := Xor32(h2, Times32(Rotl32(Times32(Word32(Part(t, 4, 8)), A2), 16), A3));
    }
    if |t| > 0 {
      h1 := Xor32(h1, Times32(Rotl32(Times32(Word32(Part(t, 0, 4)), A1), 15), A2));
    }
  }

  method MurmurHash3_x64_128(key: seq<bv8>, seed: bv32) returns (out: Pair)
    ensures out == Hash_x64_128(key, seed)
  {
    hide Times64, Rotl64, Word64, Xor64, Fmix64, Length64, Blend64, Add64;
    var nblocks := |key| / 16;
    var h1, h2 := seed as bv64, seed as bv64;
    var i := 0;
    assert key[0..] == key;
    while i < nblocks
      invariant i <= nblocks
      invariant Absorb(X64_128(), Pair(h1, h2), key[16 * i..], |key|) == Hash_x64_128(key, seed)
    {
      var rest := key[16 * i..];
      assert rest[16..] == key[16 * (i + 1)..];
      var block := rest[..16];
      FullParts(block);
      var k1, k2 := Word64(Part(block, 0, 8)), Word64(Part(block, 8, 16));
      k1 := Times64(k1, D1);
      k1 := Rotl64(k1, 31);
      k1 := Times64(k1, D2);
      h1 := Xor64(h1, k1);
      h1 := Blend64(h1, 27, h2, 0x52dce729);
      k2 := Times64(k2, D2);
      k2 := Rotl64(k2, 33);
      k2 := Times64(k2, D1);
      h2 := Xor64(h2, k2);
      h2 := Blend64(h2, 31, h1, 0x38495ab5);
      i := i + 1;
    }
    var tail := key[16 * nblocks..];
    if |tail| > 8 {
      h2 := Xor64(h2, Times64(Rotl64(Times64(Word64(Part(tail, 8, 16)), D2), 33), D1));
    }
    if |tail| > 0 {
      h1 := Xor64(h1, Times64(Rotl64(Times64(Word64(Part(tail, 0, 8)), D1), 31), D2));
    }
    h1, h2 := Xor64(h1, Length64(|key|)), Xor64(h2, Length64(|key|));
    h1 := Add64(h1, h2);
    h2 := Add64(h2, h1);
    h1, h2 := Fmix64(h1), Fmix64(h2);
    h1 := Add64(h1, h2);
    h2 := Add64(h2, h1);
    out := Pair(h1, h2);
  }
}
