/** The crypto module's key cache under every interleaving (pkg/crypto/module.go): a
    derivation has a read-locked check, a computation on a copy of the private key, a
    write-locked store, and a copy taken byte by byte after unlocking. A wiping call holds
    the lock while it zeroes its buffers byte by byte, so its zeroing and that copy
    interleave freely. Buffers are indices into a heap. */
module KeyCache {
  import opened Runs
  import opened Basics
  import opened Primitives

  datatype Call =
    | Idle
    | Computing(pub: Bytes, priv: Bytes)
    | Copying(pub: Bytes, buf: nat, done: Bytes)
    | Returned(pub: Bytes, key: Bytes)
    | Refused

  /** A cached key's buffer; `doomed` once a wiping call has taken it. */
  datatype Buffer = Buffer(pub: Bytes, bytes: Bytes, doomed: bool)

  /** `secret` is the private key the module was made with; `priv` its field, zeroed by Close.
      `wiping` holds the buffers of the wiping call that has the lock; empty, the lock is free. */
  datatype Module = Module(derive: (Bytes, Bytes) -> Option<Bytes>, secret: Bytes, priv: Bytes, closed: bool,
                           entries: map<Bytes, nat>, heap: seq<Buffer>, wiping: set<nat>, calls: map<nat, Call>)

  datatype Label =
    | Lookup(t: nat, pub: Bytes)
    | Store(t: nat)
    | CopyByte(t: nat)
    | Return(t: nat)
    | Remove(pub: Bytes)
    | Clear
    | Close
    | ZeroByte(buf: nat, i: nat)
    | Unlock

  function New(derive: (Bytes, Bytes) -> Option<Bytes>, secret: Bytes): Module {
    Module(derive, secret, secret, false, map[], [], {}, map[])
  }

  function CallOf(m: Module, t: nat): Call { if t in m.calls then m.calls[t] else Idle }

  function Set(m: Module, t: nat, c: Call): Module { m.(calls := m.calls[t := c]) }

  /** Take the lock to wipe `bufs`. */
  function Wipe(m: Module, bufs: set<nat>): Module {
    m.(heap := seq(|m.heap|, i requires 0 <= i < |m.heap| =>
         if i in bufs then m.heap[i].(doomed := true) else m.heap[i]),
       wiping := bufs)
  }

  function Next(m: Module, l: Label): Module {
    match l
    case Lookup(t, pub) =>
      if m.wiping != {} || !CallOf(m, t).Idle? then m
      else if |pub| != KEY_SIZE || m.closed then Set(m, t, Refused)
      else if pub in m.entries && m.entries[pub] < |m.heap|
      then Set(m, t, Returned(pub, m.heap[m.entries[pub]].bytes))
      else Set(m, t, Computing(pub, m.priv))
    case Store(t) =>
      if m.wiping != {} || !CallOf(m, t).Computing? then m else
      var Computing(pub, priv) := CallOf(m, t);
      var k := m.derive(priv, pub);
      if k.None? || m.closed then Set(m, t, Refused)
      else Set(m, t, Copying(pub, |m.heap|, []))
        .(heap := m.heap + [Buffer(pub, k.value, false)], entries := m.entries[pub := |m.heap|])
    case CopyByte(t) =>
      if !CallOf(m, t).Copying? then m else
      var Copying(pub, buf, done) := CallOf(m, t);
      if buf < |m.heap| && |done| < |m.heap[buf].bytes|
      then Set(m, t, Copying(pub, buf, done + [m.heap[buf].bytes[|done|]])) else m
    case Return(t) =>
      if !CallOf(m, t).Copying? then m else
      var Copying(pub, buf, done) := CallOf(m, t);
      if buf < |m.heap| && |done| == |m.heap[buf].bytes| then Set(m, t, Returned(pub, done)) else m
    case Remove(pub) =>
      if m.wiping == {} && pub in m.entries
      then Wipe(m, {m.entries[pub]}).(entries := m.entries - {pub}) else m
    case Clear => if m.wiping == {} then Wipe(m, m.entries.Values).(entries := map[]) else m
    case Close =>
      if m.wiping != {} then m
      else Wipe(m, m.entries.Values).(entries := map[], closed := true, priv := Zeros(|m.priv|))
    case ZeroByte(buf, i) =>
      if buf in m.wiping && buf < |m.heap| && i < |m.heap[buf].bytes|
      then m.(heap := m.heap[buf := m.heap[buf].(bytes := m.heap[buf].bytes[i := 0])]) else m
    case Unlock =>
      if forall b :: b in m.wiping && b < |m.heap| ==> AllZero(m.heap[b].bytes) then m.(wiping := {}) else m
  }

  // ---- The invariant ----

  ghost predicate BufferOk(m: Module, b: nat)
    requires b < |m.heap|
  {
    var k := m.derive(m.secret, m.heap[b].pub);
    && k.Some? && |m.heap[b].bytes| == |k.value|
    && (if m.heap[b].doomed then Mixed(m.heap[b].bytes, k.value) else m.heap[b].bytes == k.value)
    && (m.heap[b].doomed && b !in m.wiping ==> AllZero(m.heap[b].bytes))
  }

  ghost predicate CallOk(m: Module, c: Call) {
    match c
    case Computing(_, priv) => priv == m.secret
    case Copying(pub, buf, done) =>
      && buf < |m.heap| && m.heap[buf].pub == pub && m.derive(m.secret, pub).Some?
      && Mixed(done, m.derive(m.secret, pub).value)
    case Returned(pub, key) =>
      && m.derive(m.secret, pub).Some? && |key| == |m.derive(m.secret, pub).value|
      && Mixed(key, m.derive(m.secret, pub).value)
    case _ => true
  }

  ghost predicate EntriesOk(m: Module) {
    && (if m.closed then m.entries == map[] else m.priv == m.secret)
    && (forall p :: p in m.entries ==>
          m.entries[p] < |m.heap| && m.heap[m.entries[p]].pub == p && !m.heap[m.entries[p]].doomed)
    && (forall b :: b in m.wiping ==> b < |m.heap| && m.heap[b].doomed)
  }

  ghost predicate Ok(m: Module) {
    && EntriesOk(m)
    && (forall b: nat :: b < |m.heap| ==> BufferOk(m, b))
    && (forall t :: t in m.calls ==> CallOk(m, m.calls[t]))
  }

  lemma StepSame(m: Module, l: Label)
    ensures Next(m, l).secret == m.secret && Next(m, l).derive == m.derive
  {}

  lemma StepEntries(m: Module, l: Label)
    requires Ok(m)
    ensures EntriesOk(Next(m, l))
  {
    if l.Store? && l.t in m.calls { assert CallOk(m, m.calls[l.t]); }
  }

  lemma StepBuffer(m: Module, l: Label, b: nat)
    requires Ok(m) && b < |Next(m, l).heap|
    ensures BufferOk(Next(m, l), b)
  {
    if b < |m.heap| { assert BufferOk(m, b); }
    if l.Store? && l.t in m.calls { assert CallOk(m, m.calls[l.t]); }
  }

  lemma StepCall(m: Module, l: Label, t: nat)
    requires Ok(m) && t in Next(m, l).calls
    ensures CallOk(Next(m, l), Next(m, l).calls[t])
  {
    StepSame(m, l);
    if t in m.calls && Next(m, l).calls[t] == m.calls[t] {
      assert CallOk(m, m.calls[t]);
    } else {
      MovedCall(m, l, t);
    }
  }

  lemma MovedCall(m: Module, l: Label, t: nat)
    requires Ok(m) && t in Next(m, l).calls && !(t in m.calls && Next(m, l).calls[t] == m.calls[t])
    ensures CallOk(Next(m, l), Next(m, l).calls[t])
  {
    assert l.Lookup? || l.Store? || l.CopyByte? || l.Return?;
    if t in m.calls { assert CallOk(m, m.calls[t]); }
    if l.Lookup? && l.pub in m.entries { assert BufferOk(m, m.entries[l.pub]); }
    if CallOf(m, t).Copying? { assert BufferOk(m, CallOf(m, t).buf); }
  }

  lemma StepOk(m: Module, l: Label)
    requires Ok(m)
    ensures Ok(Next(m, l))
  {
    var n := Next(m, l);
    StepEntries(m, l);
    forall b: nat | b < |n.heap| ensures BufferOk(n, b) { StepBuffer(m, l, b); }
    forall t | t in n.calls ensures CallOk(n, n.calls[t]) { StepCall(m, l, t); }
  }

  lemma RunOk(m: Module, run: seq<Label>)
    requires Ok(m)
    ensures Ok(Exec(Next, m, run))
  {
    forall n, l | Ok(n) ensures Ok(Next(n, l)) { StepOk(n, l); }
    Invariant(Next, Ok, m, run);
  }

  /** A run keeps what the module was made with. */
  lemma {:induction false} SameModule(m: Module, run: seq<Label>)
    ensures var n := Exec(Next, m, run); n.secret == m.secret && n.derive == m.derive
    decreases |run|
  {
    if |run| > 0 {
      var init := run[..|run| - 1];
      SameModule(m, init);
      StepSame(Exec(Next, m, init), run[|run| - 1]);
    }
  }

  /** The cache refines direct derivation: in every interleaving, each entry is the key
      derived from the node's private key, after Close there is none, and every byte a call
      returns is the byte of that key or zero. */
  lemma CacheRefinesDerivation(f: Prims, secret: Bytes, run: seq<Label>, pub: Bytes, t: nat)
    ensures var derive := (a, b) => Derive(f, a, b); var m := Exec(Next, New(derive, secret), run);
      && (pub in m.entries ==>
            m.entries[pub] < |m.heap| && Some(m.heap[m.entries[pub]].bytes) == Derive(f, secret, pub))
      && (m.closed ==> m.entries == map[])
      && (CallOf(m, t).Returned? ==>
            var k := Derive(f, secret, CallOf(m, t).pub);
            && k.Some? && |CallOf(m, t).key| == |k.value|
            && forall i :: 0 <= i < |k.value| ==> CallOf(m, t).key[i] == k.value[i] || CallOf(m, t).key[i] == 0)
  {
    var derive := (a, b) => Derive(f, a, b);
    RunOk(New(derive, secret), run);
    SameModule(New(derive, secret), run);
    var m := Exec(Next, New(derive, secret), run);
    if pub in m.entries { assert BufferOk(m, m.entries[pub]); }
    if t in m.calls { assert CallOk(m, m.calls[t]); }
  }

  /** A hit is copied under the lock, so it is never torn. */
  lemma HitsAreExact(m: Module, t: nat, pub: Bytes)
    requires Ok(m) && CallOf(m, t).Idle? && CallOf(Next(m, Lookup(t, pub)), t).Returned?
    ensures Some(CallOf(Next(m, Lookup(t, pub)), t).key) == m.derive(m.secret, pub)
  {
    assert BufferOk(m, m.entries[pub]);
  }

  /** A lookup that gets the lock: refused for a key of the wrong size or by a closed module,
      answered from the cache exactly if the key is there, and computed otherwise. */
  lemma LookupExactly(m: Module, t: nat, pub: Bytes)
    requires Ok(m) && m.wiping == {} && CallOf(m, t).Idle?
    ensures var n, c := Next(m, Lookup(t, pub)), CallOf(Next(m, Lookup(t, pub)), t);
      && (c == Refused <==> |pub| != 32 || m.closed)
      && (c.Returned? <==> |pub| == 32 && !m.closed && pub in m.entries)
      && (c.Returned? ==> c.pub == pub && Some(c.key) == m.derive(m.secret, pub))
      && (c.Computing? ==> c == Computing(pub, m.secret))
      && n.entries == m.entries && n.heap == m.heap
  {
    if pub in m.entries { assert BufferOk(m, m.entries[pub]); }
  }

  /** A derivation that gets the lock again: it caches its key, in a new buffer, and goes on to
      copy it, exactly if there is a key and the module is not closed. */
  lemma StoreExactly(m: Module, t: nat)
    requires Ok(m) && m.wiping == {} && CallOf(m, t).Computing?
    ensures var n, pub := Next(m, Store(t)), CallOf(m, t).pub; var k := m.derive(m.secret, pub);
      if k.None? || m.closed then CallOf(n, t) == Refused && n.entries == m.entries && n.heap == m.heap
      else n.entries == m.entries[pub := |m.heap|] && n.heap == m.heap + [Buffer(pub, k.value, false)]
           && CallOf(n, t) == Copying(pub, |m.heap|, [])
  {
    assert CallOk(m, m.calls[t]);
  }

  // ---- Close ----

  /** A Close that gets the lock closes the module, wipes its private key and takes every entry. */
  lemma CloseTakesAll(m: Module)
    requires Ok(m) && m.wiping == {}
    ensures var n := Next(m, Close);
      && n.closed && n.entries == map[] && AllZero(n.priv)
      && (forall p :: p in m.entries ==> m.entries[p] in n.wiping && n.heap[m.entries[p]].doomed)
  {}

  lemma StaysClosed(m: Module, l: Label)
    requires m.closed && m.entries == map[] && AllZero(m.priv)
    ensures Next(m, l).closed && Next(m, l).entries == map[] && AllZero(Next(m, l).priv)
  {}

  /** It stays so in every run: no key is cached again, and a call that gets the lock is refused. */
  lemma {:induction false} ClosedForGood(m: Module, run: seq<Label>, t: nat, pub: Bytes)
    requires m.closed && m.entries == map[] && AllZero(m.priv)
    ensures var n := Exec(Next, m, run);
      && n.closed && n.entries == map[] && AllZero(n.priv)
      && (n.wiping == {} && CallOf(n, t).Idle? ==> CallOf(Next(n, Lookup(t, pub)), t) == Refused)
      && (n.wiping == {} && CallOf(n, t).Computing? ==> CallOf(Next(n, Store(t)), t) == Refused)
    decreases |run|
  {
    if |run| > 0 {
      ClosedForGood(m, run[..|run| - 1], t, pub);
      StaysClosed(Exec(Next, m, run[..|run| - 1]), run[|run| - 1]);
    }
  }

  /** A wiping call ends exactly when all its bytes are zero, and then the lock is free. */
  lemma UnlockExactly(m: Module)
    requires Ok(m)
    ensures Next(m, Unlock).wiping ==
            if forall b :: b in m.wiping ==> AllZero(m.heap[b].bytes) then {} else m.wiping
    ensures Next(m, Unlock).heap == m.heap && Next(m, Unlock).entries == m.entries
  {}

  // ---- Which bytes a derivation returns ----

  /** The label is a call that gets the lock and wipes the entry of `pub`. */
  predicate Wipes(m: Module, l: Label, pub: Bytes) { m.wiping == {} && (l == Remove(pub) || l.Clear? || l.Close?) }

  /** The label stores a new key for `pub`, so that the old buffer is no entry any more. */
  predicate Replaces(m: Module, l: Label, pub: Bytes) {
    l.Store? && m.wiping == {} && !m.closed && CallOf(m, l.t).Computing? && CallOf(m, l.t).pub == pub
  }

  /** Buffer `b` is the entry of its peer. */
  predicate Current(m: Module, b: nat)
    requires b < |m.heap|
  {
    m.heap[b].pub in m.entries && m.entries[m.heap[b].pub] == b
  }

  /** The run neither wipes the key of `pub` nor replaces it. */
  predicate Untouched(m: Module, run: seq<Label>, pub: Bytes)
    decreases |run|
  {
    |run| == 0 ||
    var init, l := run[..|run| - 1], run[|run| - 1];
    var n := Exec(Next, m, init);
    Untouched(m, init, pub) && !Wipes(n, l, pub) && !Replaces(n, l, pub)
  }

  /** The run wipes the key of `pub` before any other derivation has replaced it. */
  predicate WipedFirst(m: Module, run: seq<Label>, pub: Bytes)
    decreases |run|
  {
    |run| > 0 &&
    var init, l := run[..|run| - 1], run[|run| - 1];
    WipedFirst(m, init, pub) || (Untouched(m, init, pub) && Wipes(Exec(Next, m, init), l, pub))
  }

  lemma WipeStep(m: Module, b: nat, l: Label)
    requires Ok(m) && b < |m.heap|
    ensures var n := Next(m, l); var pub := m.heap[b].pub;
      && b < |n.heap| && n.heap[b].pub == pub
      && (n.heap[b].doomed <==> m.heap[b].doomed || (Current(m, b) && Wipes(m, l, pub)))
      && (Current(n, b) <==> Current(m, b) && !Wipes(m, l, pub) && !Replaces(m, l, pub))
  {
    assert BufferOk(m, b);
    if l.Store? && l.t in m.calls { assert CallOk(m, m.calls[l.t]); }
  }

  /** A cached buffer is taken by a wiping call exactly when one comes before a replacing
      store. */
  lemma {:induction false} WipedExactly(m: Module, b: nat, run: seq<Label>)
    requires Ok(m) && b < |m.heap| && Current(m, b)
    ensures var n := Exec(Next, m, run); var pub := m.heap[b].pub;
      && b < |n.heap| && n.heap[b].pub == pub
      && (n.heap[b].doomed <==> WipedFirst(m, run, pub))
      && (Current(n, b) <==> Untouched(m, run, pub))
    decreases |run|
  {
    if |run| > 0 {
      var init, l := run[..|run| - 1], run[|run| - 1];
      WipedExactly(m, b, init);
      RunOk(m, init);
      WipeStep(Exec(Next, m, init), b, l);
    }
  }

  /** What call `t` has copied so far. */
  function Got(m: Module, t: nat): Bytes {
    var c := CallOf(m, t);
    if c.Copying? then c.done else if c.Returned? then c.key else []
  }

  /** The label zeroes byte `i` of the buffer that call `t` is copying before `t` gets there. */
  predicate Tears(m: Module, l: Label, t: nat, i: nat) {
    var c := CallOf(m, t);
    c.Copying? && l == ZeroByte(c.buf, i) && c.buf in m.wiping && |c.done| <= i
  }

  predicate Torn(m: Module, run: seq<Label>, t: nat, i: nat)
    decreases |run|
  {
    |run| > 0 && (Torn(m, run[..|run| - 1], t, i) || Tears(Exec(Next, m, run[..|run| - 1]), run[|run| - 1], t, i))
  }

  /** The call goes on copying from the same buffer, or has returned. */
  predicate GoesOn(m: Module, t: nat, pub: Bytes, buf: nat) {
    var c := CallOf(m, t);
    (c.Copying? && c.pub == pub && c.buf == buf) || (c.Returned? && c.pub == pub)
  }

  /** Byte `i` as `t` has got it or would get it now. */
  function Byte(m: Module, t: nat, buf: nat, i: nat): byte
    requires buf < |m.heap| && i < |m.heap[buf].bytes|
  {
    if i < |Got(m, t)| then Got(m, t)[i] else m.heap[buf].bytes[i]
  }

  lemma OnStep(m: Module, t: nat, l: Label, buf: nat)
    requires Ok(m) && buf < |m.heap| && GoesOn(m, t, m.heap[buf].pub, buf)
    ensures var n := Next(m, l);
      && buf < |n.heap| && |n.heap[buf].bytes| == |m.heap[buf].bytes| && n.heap[buf].pub == m.heap[buf].pub
      && GoesOn(n, t, m.heap[buf].pub, buf)
  {}

  lemma {:induction false} KeepsCopying(m: Module, t: nat, run: seq<Label>)
    requires Ok(m) && CallOf(m, t).Copying? && CallOf(m, t).buf < |m.heap|
    ensures var n := Exec(Next, m, run); var Copying(pub, buf, _) := CallOf(m, t);
      && m.heap[buf].pub == pub && buf < |n.heap| && n.heap[buf].pub == pub
      && |n.heap[buf].bytes| == |m.heap[buf].bytes| && GoesOn(n, t, pub, buf)
    decreases |run|
  {
    assert CallOk(m, m.calls[t]);
    if |run| > 0 {
      KeepsCopying(m, t, run[..|run| - 1]);
      RunOk(m, run[..|run| - 1]);
      OnStep(Exec(Next, m, run[..|run| - 1]), t, run[|run| - 1], CallOf(m, t).buf);
    }
  }

  /** The call's own step takes the byte as it is now. */
  lemma OwnByte(m: Module, t: nat, l: Label, buf: nat, i: nat)
    requires Ok(m) && buf < |m.heap| && GoesOn(m, t, m.heap[buf].pub, buf) && i < |m.heap[buf].bytes|
    requires l == CopyByte(t) || l == Return(t)
    ensures Next(m, l).heap == m.heap && Byte(Next(m, l), t, buf, i) == Byte(m, t, buf, i)
  {
    assert CallOk(m, m.calls[t]);
  }

  lemma OtherByte(m: Module, t: nat, l: Label, buf: nat, i: nat)
    requires Ok(m) && buf < |m.heap| && GoesOn(m, t, m.heap[buf].pub, buf) && i < |m.heap[buf].bytes|
    requires l != CopyByte(t) && l != Return(t)
    ensures var n := Next(m, l);
      && CallOf(n, t) == CallOf(m, t) && buf < |n.heap| && i < |n.heap[buf].bytes|
      && n.heap[buf].bytes[i] == if l == ZeroByte(buf, i) && buf in m.wiping then 0 else m.heap[buf].bytes[i]
  {}

  lemma CopyStep(m: Module, t: nat, l: Label, buf: nat, i: nat)
    requires Ok(m) && buf < |m.heap| && GoesOn(m, t, m.heap[buf].pub, buf) && i < |m.heap[buf].bytes|
    requires buf < |Next(m, l).heap| && i < |Next(m, l).heap[buf].bytes|
    ensures Byte(Next(m, l), t, buf, i) == if Tears(m, l, t, i) then 0 else Byte(m, t, buf, i)
  {
    assert BufferOk(m, buf) && CallOk(m, m.calls[t]);
    if l == CopyByte(t) || l == Return(t) { OwnByte(m, t, l, buf, i); } else { OtherByte(m, t, l, buf, i); }
  }

  lemma {:induction false} CopiedExactly(m: Module, t: nat, run: seq<Label>, i: nat)
    requires Ok(m) && CallOf(m, t).Copying? && CallOf(m, t).done == []
    requires CallOf(m, t).buf < |m.heap| && i < |m.heap[CallOf(m, t).buf].bytes|
    ensures var n, buf := Exec(Next, m, run), CallOf(m, t).buf;
      && buf < |n.heap| && i < |n.heap[buf].bytes|
      && Byte(n, t, buf, i) == if Torn(m, run, t, i) then 0 else m.heap[buf].bytes[i]
    decreases |run|
  {
    KeepsCopying(m, t, run);
    if |run| > 0 {
      var init := run[..|run| - 1];
      KeepsCopying(m, t, init);
      CopiedExactly(m, t, init, i);
      RunOk(m, init);
      CopyStep(Exec(Next, m, init), t, run[|run| - 1], CallOf(m, t).buf, i);
    }
  }

  /** Only a wiping call can tear a copy. */
  lemma {:induction false} TornOnlyByWipe(m: Module, t: nat, run: seq<Label>, i: nat)
    requires Ok(m) && CallOf(m, t).Copying? && CallOf(m, t).done == []
    requires CallOf(m, t).buf < |m.heap| && Current(m, CallOf(m, t).buf) && i < |m.heap[CallOf(m, t).buf].bytes|
    ensures Torn(m, run, t, i) ==> WipedFirst(m, run, CallOf(m, t).pub)
    decreases |run|
  {
    assert CallOk(m, m.calls[t]);
    if |run| > 0 {
      var init, buf := run[..|run| - 1], CallOf(m, t).buf;
      TornOnlyByWipe(m, t, init, i);
      KeepsCopying(m, t, init);
      WipedExactly(m, buf, init);
      RunOk(m, init);
    }
  }

  /** The bytes of a returned key, under every interleaving: a derivation that has stored its
      key returns each byte of it exactly when no wiping call zeroed that byte before the
      copy got there, and zero otherwise; so it returns the derived key if and only if every
      byte torn in this way was zero already, and certainly if no call wiped the peer's key
      before another derivation replaced it. */
  lemma ReturnedKeyExactly(m: Module, t: nat, run: seq<Label>)
    requires Ok(m) && CallOf(m, t).Copying? && CallOf(m, t).done == []
    requires CallOf(m, t).buf < |m.heap| && Current(m, CallOf(m, t).buf)
    requires CallOf(Exec(Next, m, run), t).Returned?
    ensures var key, pub := CallOf(Exec(Next, m, run), t).key, CallOf(m, t).pub;
      var k := m.derive(m.secret, pub);
      && k.Some? && |key| == |k.value|
      && (forall i :: 0 <= i < |key| ==> key[i] == if Torn(m, run, t, i) then 0 else k.value[i])
      && (key == k.value <==> forall i :: 0 <= i < |key| && Torn(m, run, t, i) ==> k.value[i] == 0)
      && (!WipedFirst(m, run, pub) ==> key == k.value)
  {
    var n, buf := Exec(Next, m, run), CallOf(m, t).buf;
    RunOk(m, run);
    SameModule(m, run);
    assert CallOk(m, m.calls[t]) && CallOk(n, n.calls[t]) && BufferOk(m, buf);
    var key, k := CallOf(n, t).key, m.derive(m.secret, CallOf(m, t).pub).value;
    assert EntriesOk(m) && m.heap[buf].bytes == k;
    KeepsCopying(m, t, run);
    forall i | 0 <= i < |k|
      ensures |key| == |k| && key[i] == (if Torn(m, run, t, i) then 0 else k[i])
      ensures Torn(m, run, t, i) ==> WipedFirst(m, run, CallOf(m, t).pub)
    {
      CopiedExactly(m, t, run, i);
      TornOnlyByWipe(m, t, run, i);
    }
  }

  // ---- A torn copy ----

  /** The one buffer there is, and call `0` copying it. */
  ghost predicate Midway(m: Module, b: Buffer, done: Bytes) {
    m.heap == [b] && CallOf(m, 0) == Copying(b.pub, 0, done)
  }

  /** The call copies on, up to byte `j` of the buffer as it is. */
  lemma {:induction false} CopiesUpTo(R: Module -> bool, m: Module, b: Buffer, done: Bytes, j: nat) returns (n: Module)
    requires KeptBy(Next, Any, R) && R(m) && Midway(m, b, done) && |done| <= j <= |b.bytes|
    ensures R(n) && Midway(n, b, done + b.bytes[|done|..j]) && n.entries == m.entries && n.wiping == m.wiping
    decreases j - |done|
  {
    if |done| == j {
      n := m;
      assert done + b.bytes[j..j] == done;
    } else {
      n := Next(m, CopyByte(0));
      assert At(m, CopyByte(0));
      n := CopiesUpTo(R, n, b, done + [b.bytes[|done|]], j);
      assert (done + [b.bytes[|done|]]) + b.bytes[|done| + 1..j] == done + b.bytes[|done|..j];
    }
  }

  lemma StartsCopying(R: Module -> bool, s: Module, pub: Bytes) returns (m: Module)
    requires KeptBy(Next, Any, R) && R(s)
    requires s == New(s.derive, s.secret) && |pub| == KEY_SIZE && s.derive(s.secret, pub).Some?
    ensures R(m) && Midway(m, Buffer(pub, s.derive(s.secret, pub).value, false), [])
    ensures m.wiping == {} && m.entries == map[pub := 0]
  {
    assert At(s, Lookup(0, pub));
    m := Next(s, Lookup(0, pub));
    assert At(m, Store(0));
    m := Next(m, Store(0));
  }

  lemma LosesByte(R: Module -> bool, m: Module, pub: Bytes, k: Bytes, j: nat) returns (n: Module)
    requires KeptBy(Next, Any, R) && R(m) && j < |k| && m.entries == map[pub := 0] && m.wiping == {}
    requires Midway(m, Buffer(pub, k, false), k[..j])
    ensures R(n) && Midway(n, Buffer(pub, k[j := 0], true), k[..j])
  {
    assert At(m, Remove(pub));
    n := Next(m, Remove(pub));
    assert n.heap == [Buffer(pub, k, true)] && n.wiping == {0};
    assert At(n, ZeroByte(0, j));
    n := Next(n, ZeroByte(0, j));
  }

  lemma TornRun(R: Module -> bool, s: Module, pub: Bytes, j: nat) returns (m: Module)
    requires KeptBy(Next, Any, R) && R(s)
    requires s == New(s.derive, s.secret) && |pub| == KEY_SIZE && s.derive(s.secret, pub).Some?
    requires j < |s.derive(s.secret, pub).value|
    ensures R(m) && CallOf(m, 0) == Returned(pub, s.derive(s.secret, pub).value[j := 0])
  {
    var k := s.derive(s.secret, pub).value;
    m := StartsCopying(R, s, pub);
    m := CopiesUpTo(R, m, Buffer(pub, k, false), [], j);
    assert [] + k[0..j] == k[..j];
    m := LosesByte(R, m, pub, k, j);
    m := CopiesUpTo(R, m, Buffer(pub, k[j := 0], true), k[..j], |k|);
    assert k[..j] + k[j := 0][j..|k|] == k[j := 0];
    assert At(m, Return(0));
    m := Next(m, Return(0));
  }

  /** A returned key that is neither the derived key nor zeros: from a new module, a derivation
      copies `j` bytes, a removal of the key zeroes byte `j`, and the copy goes on before the
      removal does; and any byte that is not zero can be the one that is lost. */
  lemma TornCopyHappens(derive: (Bytes, Bytes) -> Option<Bytes>, secret: Bytes, pub: Bytes, j: nat)
    requires |pub| == KEY_SIZE && derive(secret, pub).Some? && j < |derive(secret, pub).value|
    requires derive(secret, pub).value[j] != 0
    ensures var k := derive(secret, pub).value;
      && k[j := 0] != k
      && exists m :: Reach(Next, Any, New(derive, secret), m) && CallOf(m, 0) == Returned(pub, k[j := 0])
  {
    var s := New(derive, secret);
    ReachableIsClosed(Next, Any, s);
    var m := TornRun(m => Reach(Next, Any, s, m), s, pub, j);
  }
}
