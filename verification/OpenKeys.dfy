/** The key of a lazily opened stream (pkg/streams/manager.go, openStreamLazilyCtx): the check
    takes the manager's own key slice, not a copy, and drops the lock; after the dial NewCipher
    copies it byte by byte. CloseStreams and Shutdown zero the slice under the lock, byte by
    byte, so the copy and the zeroing interleave freely. Slices are indices into a heap. */
module OpenKeys {
  import opened Runs
  import opened Basics
  import opened Primitives

  type Peer = string

  /** A key slice: the key that was agreed, its bytes now, and whether a call has taken it to
      wipe it. */
  datatype Slice = Slice(agreed: Bytes, bytes: Bytes, doomed: bool)

  /** A call of the lazy open, as far as keys go. */
  datatype Open =
    | Idle
    | Dialing(buf: nat)
    | Copying(buf: nat, done: Bytes)
    | Opened(key: Bytes)

  /** `wiping` holds the slices of the wiping call that has the lock; empty, the lock is free. */
  datatype Manager = Manager(entries: map<Peer, nat>, heap: seq<Slice>, wiping: set<nat>, opens: map<nat, Open>)

  datatype Label =
    | Establish(p: Peer, key: Bytes)
    | Check(t: nat, p: Peer)
    | Dial(t: nat)                  // the dial succeeds and NewCipher begins
    | CopyByte(t: nat)
    | Finish(t: nat)
    | CloseStreams(p: Peer)
    | Shutdown
    | ZeroByte(buf: nat, i: nat)
    | Unlock

  function New(): Manager { Manager(map[], [], {}, map[]) }

  function OpenOf(m: Manager, t: nat): Open { if t in m.opens then m.opens[t] else Idle }

  function Set(m: Manager, t: nat, o: Open): Manager { m.(opens := m.opens[t := o]) }

  /** Take the lock to wipe `bufs`. */
  function Wipe(m: Manager, bufs: set<nat>): Manager {
    m.(heap := seq(|m.heap|, i requires 0 <= i < |m.heap| =>
         if i in bufs then m.heap[i].(doomed := true) else m.heap[i]),
       wiping := bufs)
  }

  function Next(m: Manager, l: Label): Manager {
    match l
    case Establish(p, key) =>
      if m.wiping != {} then m
      else m.(heap := m.heap + [Slice(key, key, false)], entries := m.entries[p := |m.heap|])
    case Check(t, p) =>
      if m.wiping == {} && OpenOf(m, t).Idle? && p in m.entries then Set(m, t, Dialing(m.entries[p])) else m
    case Dial(t) => if OpenOf(m, t).Dialing? then Set(m, t, Copying(OpenOf(m, t).buf, [])) else m
    case CopyByte(t) =>
      if !OpenOf(m, t).Copying? then m else
      var Copying(buf, done) := OpenOf(m, t);
      if buf < |m.heap| && |done| < |m.heap[buf].bytes|
      then Set(m, t, Copying(buf, done + [m.heap[buf].bytes[|done|]])) else m
    case Finish(t) =>
      if !OpenOf(m, t).Copying? then m else
      var Copying(buf, done) := OpenOf(m, t);
      if buf < |m.heap| && |done| == |m.heap[buf].bytes| then Set(m, t, Opened(done)) else m
    case CloseStreams(p) =>
      if m.wiping == {} && p in m.entries
      then Wipe(m, {m.entries[p]}).(entries := m.entries - {p}) else m
    case Shutdown => if m.wiping == {} then Wipe(m, m.entries.Values).(entries := map[]) else m
    case ZeroByte(buf, i) =>
      if buf in m.wiping && buf < |m.heap| && i < |m.heap[buf].bytes|
      then m.(heap := m.heap[buf := m.heap[buf].(bytes := m.heap[buf].bytes[i := 0])]) else m
    case Unlock =>
      if forall b :: b in m.wiping && b < |m.heap| ==> AllZero(m.heap[b].bytes) then m.(wiping := {}) else m
  }

  // ---- Which bytes a stream's cipher gets ----

  ghost predicate SliceOk(m: Manager, b: nat)
    requires b < |m.heap|
  {
    && |m.heap[b].bytes| == |m.heap[b].agreed|
    && (!m.heap[b].doomed ==> m.heap[b].bytes == m.heap[b].agreed)
    && (m.heap[b].doomed && b !in m.wiping ==> AllZero(m.heap[b].bytes))
  }

  /** Entries name slices that no call has taken, calls that wipe have taken theirs, and opens
      hold slices. */
  predicate Refs(m: Manager) {
    && (forall p :: p in m.entries ==> m.entries[p] < |m.heap| && !m.heap[m.entries[p]].doomed)
    && (forall b :: b in m.wiping ==> b < |m.heap| && m.heap[b].doomed)
    && (forall t :: t in m.opens && (m.opens[t].Dialing? || m.opens[t].Copying?) ==> m.opens[t].buf < |m.heap|)
  }

  /** No two peers have one slice. */
  predicate Apart(m: Manager) {
    forall p, q :: p in m.entries && q in m.entries && m.entries[p] == m.entries[q] ==> p == q
  }

  ghost predicate Ok(m: Manager) { Refs(m) && Apart(m) && forall b: nat :: b < |m.heap| ==> SliceOk(m, b) }

  lemma StepRefs(m: Manager, l: Label)
    requires Ok(m)
    ensures Refs(Next(m, l))
  {}

  lemma StepApart(m: Manager, l: Label)
    requires Ok(m)
    ensures Apart(Next(m, l))
  {}

  lemma StepSlice(m: Manager, l: Label, b: nat)
    requires Ok(m) && b < |Next(m, l).heap|
    ensures SliceOk(Next(m, l), b)
  {
    if b < |m.heap| { assert SliceOk(m, b); }
  }

  lemma StepOk(m: Manager, l: Label)
    requires Ok(m)
    ensures Ok(Next(m, l))
  {
    StepRefs(m, l);
    StepApart(m, l);
    forall b: nat | b < |Next(m, l).heap| ensures SliceOk(Next(m, l), b) { StepSlice(m, l, b); }
  }

  lemma RunOk(m: Manager, run: seq<Label>)
    requires Ok(m)
    ensures Ok(Exec(Next, m, run))
  {
    forall n, l | Ok(n) ensures Ok(Next(n, l)) { StepOk(n, l); }
    Invariant(Next, Ok, m, run);
  }

  /** A wiping call ends exactly when all its bytes are zero, and then the lock is free. */
  lemma UnlockExactly(m: Manager)
    requires Ok(m)
    ensures Next(m, Unlock).wiping ==
            if forall b :: b in m.wiping ==> AllZero(m.heap[b].bytes) then {} else m.wiping
    ensures Next(m, Unlock).heap == m.heap && Next(m, Unlock).entries == m.entries
  {}

  /** What call `t` has copied so far. */
  function Got(m: Manager, t: nat): Bytes {
    match OpenOf(m, t)
    case Copying(_, done) => done
    case Opened(key) => key
    case _ => []
  }

  /** The call goes on with slice `buf`, or has its stream. */
  predicate GoesOn(m: Manager, t: nat, buf: nat) {
    var o := OpenOf(m, t);
    && buf < |m.heap|
    && (o.Opened? || ((o.Dialing? || o.Copying?) && o.buf == buf))
    && |Got(m, t)| <= |m.heap[buf].bytes|
    && (o.Opened? ==> |o.key| == |m.heap[buf].bytes|)
  }

  /** Byte `i` as `t` has got it or would get it now. */
  function Byte(m: Manager, t: nat, buf: nat, i: nat): byte
    requires GoesOn(m, t, buf) && i < |m.heap[buf].bytes|
  {
    if i < |Got(m, t)| then Got(m, t)[i] else m.heap[buf].bytes[i]
  }

  /** The label zeroes byte `i` of the slice that call `t` holds before `t` gets there. */
  predicate Ahead(m: Manager, l: Label, t: nat, i: nat) {
    var o := OpenOf(m, t);
    (o.Dialing? || o.Copying?) && l == ZeroByte(o.buf, i) && o.buf in m.wiping && |Got(m, t)| <= i
  }

  predicate Lost(m: Manager, run: seq<Label>, t: nat, i: nat)
    decreases |run|
  {
    |run| > 0 && (Lost(m, run[..|run| - 1], t, i) || Ahead(Exec(Next, m, run[..|run| - 1]), run[|run| - 1], t, i))
  }

  lemma OnStep(m: Manager, t: nat, l: Label, buf: nat)
    requires Ok(m) && GoesOn(m, t, buf)
    ensures var n := Next(m, l);
      && GoesOn(n, t, buf) && |n.heap[buf].bytes| == |m.heap[buf].bytes| && n.heap[buf].agreed == m.heap[buf].agreed
      && (m.heap[buf].doomed ==> n.heap[buf].doomed)
  {}

  /** The call's own step takes the byte as it is now. */
  lemma OwnByte(m: Manager, t: nat, l: Label, buf: nat, i: nat)
    requires Ok(m) && GoesOn(m, t, buf) && GoesOn(Next(m, l), t, buf)
    requires i < |m.heap[buf].bytes| && (l == Dial(t) || l == CopyByte(t) || l == Finish(t))
    ensures Next(m, l).heap == m.heap && Byte(Next(m, l), t, buf, i) == Byte(m, t, buf, i)
  {}

  lemma OtherByte(m: Manager, t: nat, l: Label, buf: nat, i: nat)
    requires Ok(m) && GoesOn(m, t, buf) && i < |m.heap[buf].bytes|
    requires l != Dial(t) && l != CopyByte(t) && l != Finish(t)
    ensures var n := Next(m, l);
      && OpenOf(n, t) == OpenOf(m, t) && buf < |n.heap| && i < |n.heap[buf].bytes|
      && n.heap[buf].bytes[i] == if l == ZeroByte(buf, i) && buf in m.wiping then 0 else m.heap[buf].bytes[i]
  {}

  lemma ByteStep(m: Manager, t: nat, l: Label, buf: nat, i: nat)
    requires Ok(m) && GoesOn(m, t, buf) && GoesOn(Next(m, l), t, buf)
    requires i < |m.heap[buf].bytes| == |Next(m, l).heap[buf].bytes|
    ensures Byte(Next(m, l), t, buf, i) == if Ahead(m, l, t, i) then 0 else Byte(m, t, buf, i)
  {
    if l == Dial(t) || l == CopyByte(t) || l == Finish(t) {
      OwnByte(m, t, l, buf, i);
    } else {
      OtherByte(m, t, l, buf, i);
    }
  }

  lemma {:induction false} KeepsOn(m: Manager, t: nat, run: seq<Label>)
    requires Ok(m) && OpenOf(m, t).Dialing?
    ensures var n, buf := Exec(Next, m, run), OpenOf(m, t).buf;
      && buf < |m.heap| && GoesOn(n, t, buf)
      && |n.heap[buf].bytes| == |m.heap[buf].bytes| && n.heap[buf].agreed == m.heap[buf].agreed
    decreases |run|
  {
    if |run| > 0 {
      KeepsOn(m, t, run[..|run| - 1]);
      RunOk(m, run[..|run| - 1]);
      OnStep(Exec(Next, m, run[..|run| - 1]), t, run[|run| - 1], OpenOf(m, t).buf);
    }
  }

  lemma {:induction false} BytesExactly(m: Manager, t: nat, run: seq<Label>, i: nat)
    requires Ok(m) && OpenOf(m, t).Dialing? && i < |m.heap[OpenOf(m, t).buf].bytes|
    ensures var n, buf := Exec(Next, m, run), OpenOf(m, t).buf;
      && GoesOn(n, t, buf) && i < |n.heap[buf].bytes|
      && Byte(n, t, buf, i) == if Lost(m, run, t, i) then 0 else m.heap[buf].bytes[i]
    decreases |run|
  {
    KeepsOn(m, t, run);
    if |run| > 0 {
      var init := run[..|run| - 1];
      KeepsOn(m, t, init);
      BytesExactly(m, t, init, i);
      RunOk(m, init);
      ByteStep(Exec(Next, m, init), t, run[|run| - 1], OpenOf(m, t).buf, i);
    }
  }

  /** Only a call that takes the slice to wipe it can cost the stream a byte. */
  lemma {:induction false} LostOnlyWhenDoomed(m: Manager, t: nat, run: seq<Label>, i: nat)
    requires Ok(m) && OpenOf(m, t).Dialing? && Lost(m, run, t, i)
    ensures var n, buf := Exec(Next, m, run), OpenOf(m, t).buf; buf < |n.heap| && n.heap[buf].doomed
    decreases |run|
  {
    var init, buf := run[..|run| - 1], OpenOf(m, t).buf;
    var n := Exec(Next, m, init);
    KeepsOn(m, t, init);
    RunOk(m, init);
    OnStep(n, t, run[|run| - 1], buf);
    KeepsOn(m, t, run);
    if Lost(m, init, t, i) { LostOnlyWhenDoomed(m, t, init, i); }
  }

  /** The label is a CloseStreams or Shutdown that gets the lock and takes slice `buf`. */
  predicate Takes(m: Manager, l: Label, buf: nat) {
    m.wiping == {} &&
    ((l.CloseStreams? && l.p in m.entries && m.entries[l.p] == buf) || (l.Shutdown? && buf in m.entries.Values))
  }

  predicate Taken(m: Manager, run: seq<Label>, buf: nat)
    decreases |run|
  {
    |run| > 0 && (Taken(m, run[..|run| - 1], buf) || Takes(Exec(Next, m, run[..|run| - 1]), run[|run| - 1], buf))
  }

  lemma TakeStep(m: Manager, l: Label, buf: nat)
    requires buf < |m.heap|
    ensures var n := Next(m, l); buf < |n.heap| && (n.heap[buf].doomed <==> m.heap[buf].doomed || Takes(m, l, buf))
  {}

  lemma {:induction false} DoomedExactly(m: Manager, run: seq<Label>, buf: nat)
    requires buf < |m.heap|
    ensures var n := Exec(Next, m, run);
      buf < |n.heap| && (n.heap[buf].doomed <==> m.heap[buf].doomed || Taken(m, run, buf))
    decreases |run|
  {
    if |run| > 0 {
      DoomedExactly(m, run[..|run| - 1], buf);
      TakeStep(Exec(Next, m, run[..|run| - 1]), run[|run| - 1], buf);
    }
  }

  /** The key a lazily opened stream ends up with, under every interleaving. From the check on
      a slice that no call had taken: each byte of the stream's key is the agreed one exactly
      when no wiping call zeroed it before the cipher copied it, and zero otherwise; so the
      stream has the agreed key if and only if every byte zeroed ahead of the copy was zero
      already, and certainly if no CloseStreams or Shutdown took the slice. */
  lemma StreamKeyExactly(m: Manager, t: nat, run: seq<Label>)
    requires Ok(m) && OpenOf(m, t).Dialing? && !m.heap[OpenOf(m, t).buf].doomed
    requires OpenOf(Exec(Next, m, run), t).Opened?
    ensures var buf := OpenOf(m, t).buf; var key, k := OpenOf(Exec(Next, m, run), t).key, m.heap[buf].agreed;
      && |key| == |k|
      && (forall i :: 0 <= i < |k| ==> key[i] == if Lost(m, run, t, i) then 0 else k[i])
      && (key == k <==> forall i :: 0 <= i < |k| && Lost(m, run, t, i) ==> k[i] == 0)
      && (!Taken(m, run, buf) ==> key == k)
  {
    KeepsOn(m, t, run);
    var buf := OpenOf(m, t).buf;
    var key, k := OpenOf(Exec(Next, m, run), t).key, m.heap[buf].agreed;
    assert SliceOk(m, buf);
    forall i | 0 <= i < |k|
      ensures key[i] == (if Lost(m, run, t, i) then 0 else k[i])
      ensures Lost(m, run, t, i) ==> Taken(m, run, buf)
    {
      StreamByte(m, t, run, i);
    }
  }

  lemma StreamByte(m: Manager, t: nat, run: seq<Label>, i: nat)
    requires Ok(m) && OpenOf(m, t).Dialing? && !m.heap[OpenOf(m, t).buf].doomed
    requires OpenOf(Exec(Next, m, run), t).Opened? && i < |m.heap[OpenOf(m, t).buf].agreed|
    ensures var buf, key := OpenOf(m, t).buf, OpenOf(Exec(Next, m, run), t).key;
      && i < |key| && key[i] == (if Lost(m, run, t, i) then 0 else m.heap[buf].agreed[i])
      && (Lost(m, run, t, i) ==> Taken(m, run, buf))
  {
    assert SliceOk(m, OpenOf(m, t).buf);
    BytesExactly(m, t, run, i);
    DoomedExactly(m, run, OpenOf(m, t).buf);
    if Lost(m, run, t, i) { LostOnlyWhenDoomed(m, t, run, i); }
  }

  // ---- A stream under a key that is not the agreed one ----

  lemma {:induction false} CopiesRest(R: Manager -> bool, m: Manager, s: Slice, done: Bytes) returns (n: Manager)
    requires KeptBy(Next, Any, R) && R(m) && m.heap == [s] && OpenOf(m, 0) == Copying(0, done)
    requires |done| <= |s.bytes| && done == s.bytes[..|done|]
    ensures R(n) && OpenOf(n, 0) == Opened(s.bytes)
    decreases |s.bytes| - |done|
  {
    if |done| == |s.bytes| {
      n := Next(m, Finish(0));
      assert At(m, Finish(0)) && done == s.bytes;
    } else {
      n := Next(m, CopyByte(0));
      assert At(m, CopyByte(0));
      assert s.bytes[..|done| + 1] == done + [s.bytes[|done|]];
      n := CopiesRest(R, n, s, done + [s.bytes[|done|]]);
    }
  }

  lemma ChecksThenLoses(R: Manager -> bool, p: Peer, k: Bytes, j: nat) returns (m: Manager)
    requires KeptBy(Next, Any, R) && R(New()) && j < |k|
    ensures R(m) && m.heap == [Slice(k, k[j := 0], true)] && OpenOf(m, 0) == Copying(0, [])
  {
    m := Next(New(), Establish(p, k));
    assert At(New(), Establish(p, k));
    assert m.heap == [Slice(k, k, false)] && m.entries == map[p := 0] && m.wiping == {};
    assert At(m, Check(0, p));
    m := Next(m, Check(0, p));
    assert OpenOf(m, 0) == Dialing(0);
    assert At(m, CloseStreams(p));
    m := Next(m, CloseStreams(p));
    assert m.heap == [Slice(k, k, true)] && m.wiping == {0};
    assert At(m, ZeroByte(0, j));
    m := Next(m, ZeroByte(0, j));
    assert m.heap == [Slice(k, k[j := 0], true)];
    assert At(m, Dial(0));
    m := Next(m, Dial(0));
  }

  /** From a new manager: the streams of a peer are closed while one of them is being dialled,
      and it is opened under a key that has lost a byte. */
  lemma OpenedUnderTornKey(p: Peer, k: Bytes, j: nat)
    requires j < |k| && k[j] != 0
    ensures exists m :: Reach(Next, Any, New(), m) && OpenOf(m, 0) == Opened(k[j := 0])
                        && k[j := 0] != k
  {
    ReachableIsClosed(Next, Any, New());
    var R := (m: Manager) => Reach(Next, Any, New(), m);
    var m := ChecksThenLoses(R, p, k, j);
    m := CopiesRest(R, m, Slice(k, k[j := 0], true), []);
    assert k[j := 0][j] != k[j];
  }
}
