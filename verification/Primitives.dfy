/** The cryptographic building blocks as functions with laws, and what the crypto package
    computes from them (pkg/crypto/ecdh.go, cipher.go, keys.go).

    The laws are those of section 6.1 of RFC 7748 (key agreement), section 2 of RFC 5869
    (HKDF output length) and section 2.8 of RFC 8439 (seal and open), and that the Edwards
    to Montgomery map takes a node's Ed25519 public key to its X25519 public key. */
module Primitives {
  import opened Basics

  type byte = x: int | 0 <= x < 256
  type Bytes = seq<byte>

  const KEY_SIZE := 32
  const NONCE_SIZE := 12
  const TAG_SIZE := 16
  const HKDF_INFO := "glueberry-v1-stream-key"

  datatype Prims = Prims(
    mult: (Bytes, Bytes) -> Bytes,                       // scalar multiplication
    base: Bytes,
    hkdf: (Bytes, Bytes, string) -> Bytes,               // secret, salt, info
    seal: (Bytes, Bytes, Bytes, Bytes) -> Bytes,         // key, nonce, plaintext, additional data
    open: (Bytes, Bytes, Bytes, Bytes) -> Option<Bytes>,
    sha512: Bytes -> Bytes,
    edPublic: Bytes -> Bytes,                            // seed to Ed25519 public key
    toMontgomery: Bytes -> Option<Bytes>)

  ghost predicate Lawful(f: Prims) {
    && |f.base| == KEY_SIZE
    && (forall k, u :: |f.mult(k, u)| == KEY_SIZE)
    && (forall a, b :: f.mult(a, f.mult(b, f.base)) == f.mult(b, f.mult(a, f.base)))
    && (forall s, salt, info :: |f.hkdf(s, salt, info)| == KEY_SIZE)
    && (forall k, n, p, ad :: |f.seal(k, n, p, ad)| == |p| + TAG_SIZE
                              && f.open(k, n, f.seal(k, n, p, ad), ad) == Some(p))
    && (forall s :: |f.sha512(s)| == 64
                    && f.toMontgomery(f.edPublic(s)) == Some(f.mult(Clamp(f.sha512(s)[..32]), f.base)))
  }

  /** `s` is a beginning of `k` of which some bytes may have been zeroed. */
  ghost predicate Mixed(s: Bytes, k: Bytes) {
    |s| <= |k| && forall i :: 0 <= i < |s| ==> s[i] == k[i] || s[i] == 0
  }

  function Zeros(n: nat): (z: Bytes)
    ensures |z| == n && forall i :: 0 <= i < n ==> z[i] == 0
  {
    seq(n, i => 0)
  }

  function First(k: Bytes): byte { if |k| > 0 then k[0] else 0 }

  function ToyMult(k: Bytes, u: Bytes): (m: Bytes)
    ensures |m| == KEY_SIZE
  {
    Zeros(32)[0 := (First(k) + First(u)) % 256]
  }

  function ToyHkdf(secret: Bytes, salt: Bytes, info: string): (k: Bytes)
    ensures |k| == KEY_SIZE
  {
    if |secret| == KEY_SIZE then secret else Zeros(KEY_SIZE)
  }

  function ToySeal(k: Bytes, n: Bytes, p: Bytes, ad: Bytes): Bytes { p + Zeros(TAG_SIZE) }

  function ToyOpen(k: Bytes, n: Bytes, c: Bytes, ad: Bytes): Option<Bytes> {
    if |c| < TAG_SIZE then None else Some(c[..|c| - TAG_SIZE])
  }

  /** A lawful instance, so that nothing below holds for want of one. */
  function Toy(): Prims {
    Prims(ToyMult, Zeros(32), ToyHkdf, ToySeal, ToyOpen,
          s => Zeros(64), s => s, e => Some(ToyMult(Clamp(Zeros(32)), Zeros(32))))
  }

  lemma ToyIsLawful()
    ensures Lawful(Toy())
  {
    var f := Toy();
    forall a, b ensures f.mult(a, f.mult(b, f.base)) == f.mult(b, f.mult(a, f.base)) {
      assert First(ToyMult(a, f.base)) == First(a) && First(ToyMult(b, f.base)) == First(b);
    }
    forall k, n, p, ad ensures |f.seal(k, n, p, ad)| == |p| + TAG_SIZE
                               && f.open(k, n, f.seal(k, n, p, ad), ad) == Some(p) {
      assert (p + Zeros(TAG_SIZE))[..|p|] == p;
    }
    forall s ensures |f.sha512(s)| == 64
                     && f.toMontgomery(f.edPublic(s)) == Some(f.mult(Clamp(f.sha512(s)[..32]), f.base)) {
      assert Zeros(64)[..32] == Zeros(32);
    }
  }

  // ---- Key conversion ----

  /** clampX25519. */
  function Clamp(k: Bytes): (c: Bytes)
    requires |k| == 32
    ensures |c| == 32
  {
    var low := k[0 := k[0] - k[0] % 8];
    var cut := low[31] % 128;
    low[31 := if cut >= 64 then cut else cut + 64]
  }

  /** Bitwise operations, bit by bit. */
  function And(x: nat, y: nat): nat
    decreases x
  {
    if x == 0 || y == 0 then 0 else 2 * And(x / 2, y / 2) + (if x % 2 == 1 && y % 2 == 1 then 1 else 0)
  }

  function Or(x: nat, y: nat): nat
    decreases x
  {
    if x == 0 then y else 2 * Or(x / 2, y / 2) + (if x % 2 == 1 || y % 2 == 1 then 1 else 0)
  }

  predicate Ones(m: nat) { m == 0 || (m % 2 == 1 && Ones(m / 2)) }

  /** A mask of ones keeps what lies under it. */
  lemma {:induction false} AndUnder(x: nat, m: nat)
    requires Ones(m) && x <= m
    ensures And(x, m) == x
    decreases m
  {
    if m > 0 { AndUnder(x / 2, m / 2); }
  }

  /** and clears the bit above it. */
  lemma {:induction false} AndAbove(x: nat, m: nat)
    requires Ones(m) && x <= m
    ensures And(x + m + 1, m) == x
    decreases m
  {
    if m > 0 {
      AndAbove(x / 2, m / 2);
      assert (x + m + 1) / 2 == x / 2 + m / 2 + 1;
    }
  }

  lemma AndEven(x: nat, y: nat)
    ensures And(x, 2 * y) == 2 * And(x / 2, y)
  {
    if x > 0 && y > 0 { assert (2 * y) / 2 == y && (2 * y) % 2 == 0; }
  }

  predicate OneBit(p: nat) { p == 1 || (p > 0 && p % 2 == 0 && OneBit(p / 2)) }

  /** Setting the top bit of a number adds it where it was clear. */
  lemma {:induction false} OrTop(x: nat, p: nat)
    requires OneBit(p) && x < 2 * p
    ensures Or(x, p) == if x >= p then x else x + p
    decreases p
  {
    if x > 0 && p > 1 { OrTop(x / 2, p / 2); }
  }

  lemma ClearLow(x: byte)
    ensures And(x, 248) == x - x % 8
  {
    AndEven(x, 124);
    AndEven(x / 2, 62);
    AndEven(x / 4, 31);
    assert x / 2 / 2 == x / 4 && x / 4 / 2 == x / 8;
    AndUnder(x / 8, 31);
  }

  lemma ClearTop(x: byte)
    ensures And(x, 127) == x % 128
  {
    if x < 128 { AndUnder(x, 127); } else { AndAbove(x - 128, 127); }
  }

  lemma SetSecond(x: byte)
    requires x < 128
    ensures Or(x, 64) == if x >= 64 then x else x + 64
  {
    OrTop(x, 64);
  }

  /** clampX25519 as the source does it: three masked stores into the buffer. */
  method ClampInPlace(k: array<byte>)
    requires k.Length == 32
    modifies k
    ensures k[..] == Clamp(old(k[..]))
  {
    ghost var was := k[..];
    ClearLow(k[0]);
    k[0] := And(k[0], 248);
    ClearTop(k[31]);
    k[31] := And(k[31], 127);
    SetSecond(k[31]);
    k[31] := Or(k[31], 64);
    assert k[0] == was[0] - was[0] % 8;
    assert k[31] == if was[31] % 128 >= 64 then was[31] % 128 else was[31] % 128 + 64;
    assert forall i :: 0 < i < 31 ==> k[i] == was[i];
    assert forall i :: 0 <= i < 32 ==> k[..][i] == Clamp(was)[i];
  }

  function Little(s: Bytes): nat { if |s| == 0 then 0 else s[0] + 256 * Little(s[1..]) }

  function Pow256(n: nat): nat { if n == 0 then 1 else 256 * Pow256(n - 1) }

  lemma {:induction false} LittleLast(s: Bytes)
    requires |s| > 0
    ensures Little(s) == Little(s[..|s| - 1]) + Pow256(|s| - 1) * s[|s| - 1]
    ensures Little(s[..|s| - 1]) < Pow256(|s| - 1)
    decreases |s|
  {
    if |s| > 1 {
      var t, last := s[1..], s[|s| - 1];
      LittleLast(t);
      var init := s[..|s| - 1];
      assert init[1..] == t[..|t| - 1] && init[0] == s[0];
      var low, w := Little(t[..|t| - 1]), Pow256(|t| - 1);
      assert Little(init) == s[0] + 256 * low;
      Shift(s[0], low, w, last);
    } else {
      assert s[1..] == [] && s[..0] == [];
    }
  }

  lemma Shift(first: int, low: int, w: int, last: int)
    ensures first + 256 * (low + w * last) == (first + 256 * low) + (256 * w) * last
  {}

  const TWO_254: nat := 0x4000_0000_0000_0000_0000_0000_0000_0000_0000_0000_0000_0000_0000_0000_0000_0000

  /** A scalar as section 5 of RFC 7748 wants it: 2^254 + 8m with 0 <= m < 2^251. */
  ghost predicate ValidScalar(v: nat) { TopBitSet(v, TWO_254) }

  ghost predicate TopBitSet(v: nat, w: nat) { exists m: nat :: 8 * m < w && v == w + 8 * m }

  lemma TopWeight()
    ensures 64 * Pow256(31) == TWO_254
  {
    assert Pow256(8) == 0x1_0000_0000_0000_0000;
    assert Pow256(16) == 0x1_0000_0000_0000_0000_0000_0000_0000_0000;
    assert Pow256(24) == 0x1_0000_0000_0000_0000_0000_0000_0000_0000_0000_0000_0000_0000;
    assert Pow256(31) == 0x1_0000_0000_0000_0000_0000_0000_0000_0000_0000_0000_0000_0000_0000_0000_0000_00;
  }

  /** A number with top digit `b` of weight `w` lies in a range fixed by `b`. */
  lemma ByTopDigit(low: nat, w: nat, b: nat)
    requires low < w
    ensures 64 * w <= low + w * b < 128 * w <==> 64 <= b < 128
  {
    if b < 64 { assert w * b <= w * 63; }
    if b >= 128 { assert w * b >= w * 128; }
    if 64 <= b < 128 { assert w * 64 <= w * b <= w * 127; }
  }

  lemma Eighths(q: nat)
    ensures (8 * q) % 8 == 0
  {}

  lemma ByEighths(v: nat, w: nat)
    requires w % 8 == 0
    ensures (v % 8 == 0 && w <= v < 2 * w) <==> TopBitSet(v, w)
  {
    var q, u := v / 8, w / 8;
    assert w == 8 * u && v == 8 * q + v % 8;
    if v % 8 == 0 && w <= v < 2 * w {
      var m: nat := q - u;
      assert 8 * m < w && v == w + 8 * m;
    }
    if TopBitSet(v, w) {
      var m: nat :| 8 * m < w && v == w + 8 * m;
      assert v == 8 * (u + m);
      Eighths(u + m);
    }
  }

  lemma LowDigit(k: Bytes)
    requires |k| > 0
    ensures Little(k) % 8 == k[0] % 8
  {
    assert Little(k) == k[0] + 8 * (32 * Little(k[1..]));
  }

  lemma FromDigits(v: nat, low: nat, w: nat, first: byte, last: byte)
    requires v == low + w * last && low < w && v % 8 == first % 8
    ensures TopBitSet(v, 64 * w) <==> first % 8 == 0 && 64 <= last < 128
  {
    ByTopDigit(low, w, last);
    ByEighths(v, 64 * w);
  }

  lemma ScalarByBytes(k: Bytes)
    requires |k| == 32
    ensures ValidScalar(Little(k)) <==> k[0] % 8 == 0 && 64 <= k[31] < 128
  {
    LittleLast(k);
    LowDigit(k);
    FromDigits(Little(k), Little(k[..31]), Pow256(31), k[0], k[31]);
    TopWeight();
  }

  /** Every 32 bytes clamp to a valid scalar, all but five bits untouched; and clamping
      changes nothing exactly when the scalar was valid, so it is idempotent. */
  lemma Clamping(k: Bytes)
    requires |k| == 32
    ensures ValidScalar(Little(Clamp(k)))
    ensures Clamp(k) == k <==> ValidScalar(Little(k))
    ensures Clamp(Clamp(k)) == Clamp(k)
    ensures forall i :: 0 < i < 31 ==> Clamp(k)[i] == k[i]
    ensures Clamp(k)[0] / 8 == k[0] / 8 && Clamp(k)[31] % 64 == k[31] % 64
  {
    ScalarByBytes(k);
    ScalarByBytes(Clamp(k));
    FixedByClamp(k);
    FixedByClamp(Clamp(k));
  }

  lemma FixedByClamp(k: Bytes)
    requires |k| == 32
    ensures Clamp(k) == k <==> k[0] % 8 == 0 && 64 <= k[31] < 128
    ensures Clamp(k)[0] % 8 == 0 && 64 <= Clamp(k)[31] < 128
  {
    var c := Clamp(k);
    assert c[0] == k[0] - k[0] % 8;
    assert c[31] == if k[31] % 128 >= 64 then k[31] % 128 else k[31] % 128 + 64;
    if c[0] == k[0] && c[31] == k[31] { assert c == k; }
  }

  // ---- Key agreement ----

  /** The X25519 private key of a node, from the seed of its Ed25519 key. */
  function PrivateOf(f: Prims, seed: Bytes): Bytes {
    var h := f.sha512(seed);
    if |h| < 32 then h else Clamp(h[..32])
  }

  function PublicOf(f: Prims, priv: Bytes): Bytes { f.mult(priv, f.base) }

  predicate AllZero(s: Bytes) { forall i :: 0 <= i < |s| ==> s[i] == 0 }

  /** DeriveSharedKey with no salt. */
  function Derive(f: Prims, priv: Bytes, pub: Bytes): Option<Bytes> {
    if |priv| != KEY_SIZE || |pub| != KEY_SIZE then None
    else if AllZero(f.mult(priv, pub)) then None
    else Some(f.hkdf(f.mult(priv, pub), [], HKDF_INFO))
  }

  /** The two ends derive the same key, or both refuse. */
  lemma Agreement(f: Prims, a: Bytes, b: Bytes)
    requires Lawful(f) && |a| == KEY_SIZE && |b| == KEY_SIZE
    ensures Derive(f, a, PublicOf(f, b)) == Derive(f, b, PublicOf(f, a))
    ensures Derive(f, a, PublicOf(f, b)).Some? ==> |Derive(f, a, PublicOf(f, b)).value| == KEY_SIZE
  {
    assert f.mult(a, f.mult(b, f.base)) == f.mult(b, f.mult(a, f.base));
  }

  /** Derivation refuses keys of the wrong size and an all-zero secret, and nothing else; and the
      key is what HKDF makes of the secret, without salt, for this use. */
  lemma DerivedExactly(f: Prims, priv: Bytes, pub: Bytes)
    ensures Derive(f, priv, pub).None? <==>
              |priv| != 32 || |pub| != 32 || forall i :: 0 <= i < |f.mult(priv, pub)| ==> f.mult(priv, pub)[i] == 0
    ensures Derive(f, priv, pub).Some? ==>
              Derive(f, priv, pub).value == f.hkdf(f.mult(priv, pub), [], "glueberry-v1-stream-key")
  {}

  /** Different secrets never give the same key, if HKDF separates them; so a node shares no key
      with two peers with which its secrets differ. */
  lemma SecretsSeparate(f: Prims, a: Bytes, x: Bytes, b: Bytes, y: Bytes)
    requires f.hkdf(f.mult(a, x), [], "glueberry-v1-stream-key") == f.hkdf(f.mult(b, y), [], "glueberry-v1-stream-key")
             ==> f.mult(a, x) == f.mult(b, y)
    requires Derive(f, a, x).Some? && Derive(f, b, y).Some?
    ensures Derive(f, a, x) == Derive(f, b, y) <==> f.mult(a, x) == f.mult(b, y)
  {}

  lemma ToyPublic(n: byte)
    ensures |PublicOf(Toy(), Zeros(32)[0 := n])| == 32 && PublicOf(Toy(), Zeros(32)[0 := n])[0] == n
  {}

  lemma ToySecret(a: Bytes, x: Bytes)
    requires |a| == 32 && |x| == 32 && 0 < a[0] + x[0] < 256
    ensures Derive(Toy(), a, x).Some? && |Derive(Toy(), a, x).value| == 32
            && Derive(Toy(), a, x).value[0] == a[0] + x[0]
  {
    assert Toy().mult(a, x) == ToyMult(a, x) && ToyMult(a, x)[0] == a[0] + x[0];
    DerivedExactly(Toy(), a, x);
  }

  /** A lawful instance in which a node's keys with two peers are different. */
  lemma PeersHaveDifferentKeys()
    ensures var f, a, b, c := Toy(), Zeros(32)[0 := 1], Zeros(32)[0 := 2], Zeros(32)[0 := 3];
      && Lawful(f)
      && Derive(f, a, PublicOf(f, b)).Some? && Derive(f, a, PublicOf(f, c)).Some?
      && Derive(f, a, PublicOf(f, b)) != Derive(f, a, PublicOf(f, c))
  {
    var f, a, b, c := Toy(), Zeros(32)[0 := 1], Zeros(32)[0 := 2], Zeros(32)[0 := 3];
    ToyIsLawful();
    ToyPublic(2);
    ToyPublic(3);
    ToySecret(a, PublicOf(f, b));
    ToySecret(a, PublicOf(f, c));
  }

  /** A node that reads a peer's Ed25519 public key derives what the peer derives from its. */
  lemma AgreementFromIdentity(f: Prims, seedA: Bytes, seedB: Bytes)
    requires Lawful(f)
    ensures f.toMontgomery(f.edPublic(seedA)).Some? && f.toMontgomery(f.edPublic(seedB)).Some?
    ensures Derive(f, PrivateOf(f, seedA), f.toMontgomery(f.edPublic(seedB)).value)
         == Derive(f, PrivateOf(f, seedB), f.toMontgomery(f.edPublic(seedA)).value)
    ensures ValidScalar(Little(PrivateOf(f, seedA)))
  {
    assert |f.sha512(seedA)| == 64 && |f.sha512(seedB)| == 64;
    Clamping(f.sha512(seedA)[..32]);
    Agreement(f, PrivateOf(f, seedA), PrivateOf(f, seedB));
  }

  // ---- Sealing ----

  /** Cipher.Encrypt under a given nonce: nonce, ciphertext, tag. */
  function Encrypt(f: Prims, key: Bytes, nonce: Bytes, plain: Bytes, ad: Bytes): Option<Bytes> {
    if |key| != KEY_SIZE || |nonce| != NONCE_SIZE then None
    else Some(nonce + f.seal(key, nonce, plain, ad))
  }

  function Decrypt(f: Prims, key: Bytes, data: Bytes, ad: Bytes): Option<Bytes> {
    if |key| != KEY_SIZE || |data| < NONCE_SIZE + TAG_SIZE then None
    else f.open(key, data[..NONCE_SIZE], data[NONCE_SIZE..], ad)
  }

  /** A sealed message is the nonce and what the cipher makes of exactly these inputs; and
      opening refuses a message too short to have a nonce and a tag, and otherwise opens what
      follows the nonce under it. */
  lemma SealedExactly(f: Prims, key: Bytes, nonce: Bytes, plain: Bytes, data: Bytes, ad: Bytes)
    ensures Encrypt(f, key, nonce, plain, ad).Some? <==> |key| == 32 && |nonce| == 12
    ensures Encrypt(f, key, nonce, plain, ad).Some? ==>
              var c := Encrypt(f, key, nonce, plain, ad).value;
              |c| >= 12 && c[..12] == nonce && c[12..] == f.seal(key, nonce, plain, ad)
    ensures Decrypt(f, key, data, ad) ==
            if |key| != 32 || |data| < 28 then None else f.open(key, data[..12], data[12..], ad)
  {
    assert (nonce + f.seal(key, nonce, plain, ad))[|nonce|..] == f.seal(key, nonce, plain, ad);
  }

  /** What one node seals for another, the other opens; the cost is 28 bytes. */
  lemma SealedForEachOther(f: Prims, a: Bytes, b: Bytes, nonce: Bytes, plain: Bytes, ad: Bytes)
    requires Lawful(f) && |a| == KEY_SIZE && |b| == KEY_SIZE && |nonce| == NONCE_SIZE
    requires Derive(f, a, PublicOf(f, b)).Some?
    ensures var k := Derive(f, a, PublicOf(f, b)).value; var k' := Derive(f, b, PublicOf(f, a));
      && k'.Some?
      && Encrypt(f, k, nonce, plain, ad).Some?
      && |Encrypt(f, k, nonce, plain, ad).value| == |plain| + NONCE_SIZE + TAG_SIZE == |plain| + 28
      && Decrypt(f, k'.value, Encrypt(f, k, nonce, plain, ad).value, ad) == Some(plain)
  {
    Agreement(f, a, b);
    var k := Derive(f, a, PublicOf(f, b)).value;
    var c := f.seal(k, nonce, plain, ad);
    assert (nonce + c)[..NONCE_SIZE] == nonce && (nonce + c)[NONCE_SIZE..] == c;
    assert f.open(k, nonce, c, ad) == Some(plain);
  }
}
