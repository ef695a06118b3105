/** The key buffers of one node, on the heap: the crypto module's cache
    (pkg/crypto/module.go), the connection manager's copies (pkg/connection/peer.go), the
    stream manager's keys (pkg/streams/manager.go) and the ciphers' copies
    (pkg/crypto/cipher.go). The four maps of the source are one map whose keys name the
    owner, so that "pairwise distinct" is one sentence. Calls do not overlap here; module
    KeyCache has the cache under every interleaving. */
module KeyBuffers {
  import opened Basics
  import opened Primitives

  type Peer = string

  datatype Owner = Cache(pub: Bytes) | Conn(peer: Peer) | Streams(peer: Peer) | Cipher(id: nat)

  /** SecureZero. */
  method SecureZero(b: array<byte>)
    modifies b
    ensures AllZero(b[..])
  {
    for i := 0 to b.Length
      invariant forall j :: 0 <= j < i ==> b[j] == 0
    {
      b[i] := 0;
    }
  }

  /** SecureZeroMultiple, for two buffers. */
  method ZeroBoth(a: array<byte>, b: array<byte>)
    modifies a, b
    ensures AllZero(a[..]) && AllZero(b[..])
  {
    SecureZero(a);
    SecureZero(b);
    assert forall i :: 0 <= i < a.Length ==> a[..][i] == 0;
  }

  method Copy(b: array<byte>) returns (c: array<byte>)
    ensures fresh(c) && c[..] == b[..]
  {
    c := Filled(b[..]);
  }

  method Filled(s: Bytes) returns (c: array<byte>)
    ensures fresh(c) && c[..] == s
  {
    c := new byte[|s|](_ => 0);
    for i := 0 to |s|
      invariant c[..i] == s[..i]
    {
      c[i] := s[i];
    }
  }

  /** The all-zero check of ComputeX25519SharedSecret. */
  method IsAllZero(b: array<byte>) returns (zero: bool)
    ensures zero <==> AllZero(b[..])
  {
    zero := true;
    for i := 0 to b.Length
      invariant zero && forall j :: 0 <= j < i ==> b[j] == 0
    {
      if b[i] != 0 {
        assert b[..][i] != 0;
        return false;
      }
    }
  }

  /** DeriveSharedKey: the raw secret is zeroed whatever happens. */
  method DeriveFresh(f: Prims, priv: array<byte>, pub: Bytes) returns (key: Option<array<byte>>)
    ensures key.Some? <==> Derive(f, priv[..], pub).Some?
    ensures key.Some? ==> fresh(key.value) && Some(key.value[..]) == Derive(f, priv[..], pub)
    ensures key.None? <==> |priv[..]| != 32 || |pub| != 32 || AllZero(f.mult(priv[..], pub))
    ensures key.Some? ==> key.value[..] == f.hkdf(f.mult(priv[..], pub), [], "glueberry-v1-stream-key")
  {
    if priv.Length != KEY_SIZE || |pub| != KEY_SIZE { return None; }
    var secret := Filled(f.mult(priv[..], pub));
    var zero := IsAllZero(secret);
    if zero { return None; }
    var k := Filled(f.hkdf(secret[..], [], HKDF_INFO));
    SecureZero(secret);
    return Some(k);
  }

  /** A call that concerns keys. `Forget` is the zeroing of one owner's key. */
  datatype Op = Prepare(p: Peer, pub: Bytes) | Open(id: nat, p: Peer) | Forget(o: Owner) | Clear

  /** The effect of a call on keys that are plain values. */
  function AfterOp(f: Prims, priv: Bytes, keys: map<Owner, Bytes>, op: Op): map<Owner, Bytes> {
    match op
    case Prepare(p, pub) =>
      var k := Derive(f, priv, pub);
      if k.None? then keys else keys[Cache(pub) := k.value][Conn(p) := k.value][Streams(p) := k.value]
    case Open(id, p) => if Streams(p) in keys then keys[Cipher(id) := keys[Streams(p)]] else keys
    case Forget(o) => keys - {o}
    case Clear => map o | o in keys && !o.Cache? :: keys[o]
  }

  function Performed(f: Prims, priv: Bytes, keys: map<Owner, Bytes>, ops: seq<Op>): map<Owner, Bytes>
    decreases |ops|
  {
    if |ops| == 0 then keys
    else AfterOp(f, priv, Performed(f, priv, keys, ops[..|ops| - 1]), ops[|ops| - 1])
  }

  class Node {
    const f: Prims
    const edPriv: array<byte>  // the caller's Ed25519 private key, not a copy
    const priv: array<byte>    // the X25519 private key
    var bufs: map<Owner, array<byte>>
    var closed: bool

    /** Every key and its owner, by value. */
    ghost function Keys(): map<Owner, Bytes>
      reads this, bufs.Values
    {
      map o | o in bufs :: bufs[o][..]
    }

    /** Key separation: no two owners share a buffer, and none is a private key's. */
    ghost predicate Separated()
      reads this
    {
      && priv != edPriv && priv !in bufs.Values && edPriv !in bufs.Values
      && forall o, o' :: o in bufs && o' in bufs && bufs[o] == bufs[o'] ==> o == o'
    }

    /** Every cached key is the derivation from the node's private key. */
    ghost predicate Valid()
      reads this, priv, bufs.Values
    {
      && Lawful(f) && Separated()
      && (closed ==> forall o :: o in bufs ==> !o.Cache?)
      && (forall pub :: Cache(pub) in bufs ==> Some(Keys()[Cache(pub)]) == Derive(f, priv[..], pub))
      && (forall o :: o in bufs ==> bufs[o].Length == KEY_SIZE)
    }

    /** NewModule on a validated key, which is a seed followed by the public key. */
    constructor (f: Prims, edPriv: array<byte>)
      requires Lawful(f) && edPriv.Length == 64
      ensures Valid() && Keys() == map[] && !closed && this.edPriv == edPriv && fresh(priv)
      ensures priv[..] == PrivateOf(f, edPriv[..32]) && ValidScalar(Little(priv[..]))
    {
      AgreementFromIdentity(f, edPriv[..32], edPriv[..32]);
      var p := Filled(f.sha512(edPriv[..32])[..32]);
      ClampInPlace(p);
      this.f, this.edPriv, priv, bufs, closed := f, edPriv, p, map[], false;
    }

    /** Give `o` the fresh buffer `b`. What `o` owned before is dropped, not zeroed. */
    method Take(o: Owner, b: array<byte>)
      requires Valid() && b !in bufs.Values && b != priv && b != edPriv && b.Length == KEY_SIZE
      requires o.Cache? ==> !closed && Some(b[..]) == Derive(f, priv[..], o.pub)
      modifies this`bufs
      ensures Valid() && Keys() == old(Keys())[o := b[..]] && bufs == old(bufs)[o := b]
    {
      bufs := bufs[o := b];
    }

    /** Zero the buffer of `o` and forget it: RemovePeerKey, PeerConnection.Cleanup,
        CloseStreams and Cipher.Close. No other key changes. */
    method ZeroAndForget(o: Owner)
      requires Valid()
      modifies this`bufs, if o in bufs then {bufs[o]} else {}
      ensures Valid() && Keys() == old(Keys()) - {o} && bufs == old(bufs) - {o}
      ensures o in old(bufs) ==> AllZero(old(bufs)[o][..])
    {
      if o in bufs { SecureZero(bufs[o]); }
      bufs := bufs - {o};
    }

    /** Zero every cached buffer, then drop the cache. */
    method ZeroCache()
      requires Separated()
      modifies this`bufs, set o | o in bufs && o.Cache? :: bufs[o]
      ensures bufs == map o | o in old(bufs) && !o.Cache? :: old(bufs)[o]
      ensures forall o :: o in old(bufs) && o.Cache? ==> AllZero(old(bufs)[o][..])
    {
      var todo := set o | o in bufs && o.Cache?;
      while todo != {}
        invariant bufs == old(bufs) && todo <= set o | o in bufs && o.Cache?
        invariant forall o :: o in bufs && o.Cache? && o !in todo ==> AllZero(bufs[o][..])
        decreases todo
      {
        var o :| o in todo;
        SecureZero(bufs[o]);
        todo := todo - {o};
      }
      bufs := map o | o in bufs && !o.Cache? :: bufs[o];
    }

    /** ClearPeerKeys: every cached key is zeroed and forgotten, and nothing else changes. */
    method ClearPeerKeys()
      requires Valid()
      modifies this`bufs, set o | o in bufs && o.Cache? :: bufs[o]
      ensures Valid()
      ensures Keys() == map o | o in old(Keys()) && !o.Cache? :: old(Keys())[o]
      ensures forall o :: o in old(bufs) && o.Cache? ==> AllZero(old(bufs)[o][..])
      ensures bufs.Values <= old(bufs.Values)
    {
      ZeroCache();
    }

    /** Module.Close: no cached key and neither private key is left, the caller's included. */
    method Close()
      requires Valid()
      modifies this, priv, edPriv, set o | o in bufs && o.Cache? :: bufs[o]
      ensures Valid() && closed && AllZero(priv[..]) && AllZero(edPriv[..])
      ensures Keys() == map o | o in old(Keys()) && !o.Cache? :: old(Keys())[o]
    {
      closed := true;
      ZeroCache();
      ZeroBoth(edPriv, priv);
    }

    /** DeriveSharedKeyFromX25519: a fresh buffer holding the direct derivation, whether the
        key was cached or not. */
    method DeriveSharedKey(pub: Bytes) returns (key: Option<array<byte>>)
      requires Valid()
      modifies this`bufs
      ensures Valid()
      ensures key.Some? <==> !closed && Derive(f, priv[..], pub).Some?
      ensures key.Some? ==> fresh(key.value) && key.value !in bufs.Values && key.value != priv && key.value != edPriv
      ensures key.Some? ==> Some(key.value[..]) == Derive(f, priv[..], pub)
      ensures key.Some? ==> Keys() == old(Keys())[Cache(pub) := key.value[..]]
      ensures key.None? ==> bufs == old(bufs)
      ensures fresh(bufs.Values - old(bufs.Values))
    {
      if |pub| != KEY_SIZE || closed { return None; }
      if Cache(pub) in bufs {
        var hit := Copy(bufs[Cache(pub)]);
        assert Keys()[Cache(pub)] == hit[..];
        return Some(hit);
      }
      key := DeriveAndStore(pub);
    }

    /** A miss: derive from a copy of the private key, store, and hand out a copy. */
    method DeriveAndStore(pub: Bytes) returns (key: Option<array<byte>>)
      requires Valid() && !closed
      modifies this`bufs
      ensures Valid()
      ensures key.Some? <==> Derive(f, priv[..], pub).Some?
      ensures key.Some? ==> fresh(key.value) && key.value !in bufs.Values && key.value != priv && key.value != edPriv
      ensures key.Some? ==> Some(key.value[..]) == Derive(f, priv[..], pub)
      ensures key.Some? ==> Keys() == old(Keys())[Cache(pub) := key.value[..]]
      ensures key.None? ==> bufs == old(bufs)
      ensures fresh(bufs.Values - old(bufs.Values))
    {
      var privCopy := Copy(priv);
      var derived := DeriveFresh(f, privCopy, pub);
      SecureZero(privCopy);
      if derived.None? { return None; }
      assert derived.value.Length == |derived.value[..]| == KEY_SIZE;
      Take(Cache(pub), derived.value);
      var result := Copy(derived.value);
      return Some(result);
    }

    /** Connection manager, SetSharedKey: stores a copy. */
    method SetSharedKey(p: Peer, key: array<byte>)
      requires Valid() && key.Length == KEY_SIZE
      modifies this`bufs
      ensures Valid() && Keys() == old(Keys())[Conn(p) := key[..]]
      ensures fresh(bufs.Values - old(bufs.Values))
    {
      var mine := Copy(key);
      Take(Conn(p), mine);
    }

    /** Stream manager, EstablishStreams: keeps the derived buffer itself. */
    method EstablishStreams(p: Peer, pub: Bytes) returns (ok: bool)
      requires Valid()
      modifies this`bufs
      ensures Valid() && (ok <==> !closed && Derive(f, priv[..], pub).Some?)
      ensures Keys() == if ok then old(Keys())[Cache(pub) := Derive(f, priv[..], pub).value]
                                              [Streams(p) := Derive(f, priv[..], pub).value] else old(Keys())
      ensures fresh(bufs.Values - old(bufs.Values))
    {
      var key := DeriveSharedKey(pub);
      if key.None? { return false; }
      assert key.value.Length == |key.value[..]| == KEY_SIZE;
      Take(Streams(p), key.value);
      return true;
    }

    /** The first half of PrepareStreams. */
    method KeepForConnection(p: Peer, pub: Bytes) returns (ok: bool)
      requires Valid()
      modifies this`bufs
      ensures Valid() && (ok <==> !closed && Derive(f, priv[..], pub).Some?)
      ensures Keys() == if ok then old(Keys())[Cache(pub) := Derive(f, priv[..], pub).value]
                                              [Conn(p) := Derive(f, priv[..], pub).value] else old(Keys())
      ensures fresh(bufs.Values - old(bufs.Values))
    {
      var key := DeriveSharedKey(pub);
      if key.None? { return false; }
      assert key.value.Length == |key.value[..]| == KEY_SIZE;
      SetSharedKey(p, key.value);
      return true;
    }

    /** PrepareStreams as far as keys go: cache, connection manager and stream manager hold
        the same key in three buffers, and no other key changes. */
    method PrepareStreams(p: Peer, pub: Bytes) returns (ok: bool)
      requires Valid()
      modifies this`bufs
      ensures Valid() && (ok <==> !closed && Derive(f, priv[..], pub).Some?)
      ensures ok ==> var k := Derive(f, priv[..], pub).value;
        Keys() == old(Keys())[Cache(pub) := k][Conn(p) := k][Streams(p) := k]
      ensures !ok ==> Keys() == old(Keys())
      ensures fresh(bufs.Values - old(bufs.Values))
    {
      ok := KeepForConnection(p, pub);
      if !ok { return; }
      ghost var keys := Keys();
      ok := EstablishStreams(p, pub);
      assert keys[Cache(pub) := keys[Cache(pub)]] == keys;
    }

    /** NewCipher for a stream of `p`: the cipher copies the stream manager's key. */
    method OpenCipher(id: nat, p: Peer) returns (ok: bool)
      requires Valid()
      modifies this`bufs
      ensures Valid() && (ok <==> Streams(p) in old(bufs))
      ensures Keys() == if ok then old(Keys())[Cipher(id) := old(Keys())[Streams(p)]] else old(Keys())
      ensures fresh(bufs.Values - old(bufs.Values))
    {
      if Streams(p) !in bufs { return false; }
      var mine := Copy(bufs[Streams(p)]);
      Take(Cipher(id), mine);
      return true;
    }

    /** Any sequence of non-overlapping calls: the buffers stay separate, and the keys are at
        every point what the calls would make of plain values, so no zeroing is ever felt by
        another owner. */
    method Perform(ops: seq<Op>)
      requires Valid() && !closed
      modifies this`bufs, bufs.Values
      ensures Valid() && Keys() == Performed(f, priv[..], old(Keys()), ops)
      ensures fresh(bufs.Values - old(bufs.Values))
    {
      for i := 0 to |ops|
        invariant Valid() && !closed && priv[..] == old(priv[..])
        invariant Keys() == Performed(f, priv[..], old(Keys()), ops[..i])
        invariant fresh(bufs.Values - old(bufs.Values))
      {
        assert ops[..i + 1][..i] == ops[..i];
        One(ops[i]);
      }
      assert ops[..|ops|] == ops;
    }

    method One(op: Op)
      requires Valid() && !closed
      modifies this`bufs, bufs.Values
      ensures Valid() && Keys() == AfterOp(f, priv[..], old(Keys()), op)
      ensures fresh(bufs.Values - old(bufs.Values))
    {
      match op
      case Prepare(p, pub) => var _ := PrepareStreams(p, pub);
      case Open(id, p) => var _ := OpenCipher(id, p);
      case Forget(o) => ZeroAndForget(o);
      case Clear => ClearPeerKeys();
    }

    /** Module.Encrypt with the nonce it drew. The copy of the key is zeroed afterwards. */
    method Seal(pub: Bytes, nonce: Bytes, plain: Bytes) returns (data: Option<Bytes>)
      requires Valid() && |nonce| == NONCE_SIZE
      ensures data.Some? <==> Cache(pub) in bufs
      ensures data.Some? ==> data == Encrypt(f, Keys()[Cache(pub)], nonce, plain, [])
    {
      if closed || Cache(pub) !in bufs { return None; }
      var k := Copy(bufs[Cache(pub)]);
      data := Encrypt(f, k[..], nonce, plain, []);
      SecureZero(k);
    }

    method Unseal(pub: Bytes, data: Bytes) returns (plain: Option<Bytes>)
      requires Valid()
      ensures plain == if Cache(pub) in bufs then Decrypt(f, Keys()[Cache(pub)], data, []) else None
    {
      if closed || Cache(pub) !in bufs { return None; }
      var k := Copy(bufs[Cache(pub)]);
      plain := Decrypt(f, k[..], data, []);
      SecureZero(k);
    }
  }

  /** Two nodes that have each cached the other hold the same key, in different buffers, and
      what one seals the other opens. */
  lemma CachesAgree(a: Node, b: Node, nonce: Bytes, plain: Bytes)
    requires a.Valid() && b.Valid() && a.f == b.f && |nonce| == NONCE_SIZE
    requires a.priv.Length == KEY_SIZE && b.priv.Length == KEY_SIZE
    requires Cache(PublicOf(a.f, b.priv[..])) in a.bufs && Cache(PublicOf(a.f, a.priv[..])) in b.bufs
    ensures var k, k' := a.Keys()[Cache(PublicOf(a.f, b.priv[..]))], b.Keys()[Cache(PublicOf(a.f, a.priv[..]))];
      && k == k'
      && Encrypt(a.f, k, nonce, plain, []).Some?
      && |Encrypt(a.f, k, nonce, plain, []).value| == |plain| + 28
      && Decrypt(b.f, k', Encrypt(a.f, k, nonce, plain, []).value, []) == Some(plain)
  {
    SealedForEachOther(a.f, a.priv[..], b.priv[..], nonce, plain, []);
    Agreement(a.f, a.priv[..], b.priv[..]);
  }
}
