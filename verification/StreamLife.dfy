/** The life of one encrypted stream (pkg/streams/encrypted.go): Close and the end of the
    read loop compete for the closed flag, and sends hold the lock that Close needs to wipe
    the cipher. */
module StreamLife {
  import opened Runs
  import opened Basics
  import opened Primitives

  /** `wiped`: the cipher's key copy is zeroed; `shut`: the network stream is closed. */
  datatype Life = Life(closed: bool, wiped: bool, shut: bool, sent: nat, refused: nat)

  /** A Send is one whose caller does not give up before the closed flag decides it. */
  datatype Op = Send | Close | ReaderEnds

  function New(): Life { Life(false, false, false, 0, 0) }

  function Next(s: Life, op: Op): Life {
    match op
    case Send => if s.closed then s.(refused := s.refused + 1) else s.(sent := s.sent + 1)
    case Close => if s.closed then s else s.(closed := true, wiped := true, shut := true)
    case ReaderEnds => s.(closed := true)
  }

  class EncryptedStream {
    var closed: bool
    var key: array<byte>
    var shut: bool
    var wire: seq<Bytes>  // the messages written to the network stream
    ghost var sent: nat
    ghost var refused: nat

    ghost predicate Wiped()
      reads this`key, key
    {
      forall i :: 0 <= i < key.Length ==> key[i] == 0
    }

    ghost function View(): Life
      reads this, key
    {
      Life(closed, Wiped(), shut, sent, refused)
    }

    /** SendCtx, with the nonce the cipher draws. The caller's context is looked at; under the
        read lock, the closed flag, the context again and the encryption; and under the write
        lock, the context once more before the write, which may fail. So what reaches the wire
        is sealed under the key that was there while the stream was open. */
    method SendCtx(f: Prims, gone: bool, goneLater: bool, goneLast: bool, writes: bool, nonce: Bytes, data: Bytes)
      returns (ok: bool)
      requires key.Length == KEY_SIZE && |nonce| == NONCE_SIZE
      modifies this`sent, this`refused, this`wire
      ensures ok <==> !gone && !closed && !goneLater && !goneLast && writes
      ensures Encrypt(f, key[..], nonce, data, []).Some?
      ensures wire == old(wire) + if ok then [Encrypt(f, key[..], nonce, data, []).value] else []
      ensures View() == if gone || (goneLater && !closed) then old(View()) else Next(old(View()), Send)
    {
      if gone { return false; }
      if closed {
        refused := refused + 1;
        return false;
      }
      if goneLater { return false; }
      var sealed := Encrypt(f, key[..], nonce, data, []);
      sent := sent + 1;
      if goneLast || !writes { return false; }
      wire := wire + [sealed.value];
      return true;
    }

    method CloseStream()
      modifies this`closed, this`shut, key
      ensures View() == Next(old(View()), Close)
      ensures old(closed) ==> key[..] == old(key[..])
    {
      if closed { return; }
      closed := true;
      for i := 0 to key.Length
        invariant closed && shut == old(shut) && forall j :: 0 <= j < i ==> key[j] == 0
      {
        key[i] := 0;
      }
      shut := true;
    }

    method MarkClosed()
      modifies this`closed
      ensures View() == Next(old(View()), ReaderEnds)
    {
      if !closed { closed := true; }
    }
  }

  /** The position of the first operation that ends the stream, |run| if there is none. */
  function FirstEnd(run: seq<Op>): nat
    decreases |run|
  {
    if |run| == 0 then 0
    else if FirstEnd(run[..|run| - 1]) < |run| - 1 then FirstEnd(run[..|run| - 1])
    else if run[|run| - 1].Send? then |run| else |run| - 1
  }

  /** In every run: the sends let through are exactly those before the first end; and the
      cipher is wiped and the network stream closed exactly when that end is a Close. A
      Close that comes after the read loop has ended does neither. */
  lemma {:induction false} FirstEndDecides(run: seq<Op>)
    ensures var s, k := Exec(Next, New(), run), FirstEnd(run);
      && k <= |run| && (forall i :: 0 <= i < k ==> run[i] == Send) && (k < |run| ==> run[k] != Send)
      && s.sent == k && (s.closed <==> k < |run|)
      && (s.wiped <==> k < |run| && run[k] == Close) && s.shut == s.wiped
      && s.sent + s.refused == multiset(run)[Send]
    decreases |run|
  {
    if |run| > 0 {
      FirstEndDecides(run[..|run| - 1]);
      assert run == run[..|run| - 1] + [run[|run| - 1]];
    }
  }
}
