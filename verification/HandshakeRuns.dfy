/** Runs of the handshake that go wrong, from the start: a node that finalises on its own
    preparation alone, a key torn by the cleanup of an earlier connection, and a node
    established by a Complete that comes after its sender has cleaned up. They show that
    the conditions in the results of module Handshake cannot be dropped. */
module HandshakeRuns {
  import opened Runs
  import opened States
  import opened Basics
  import opened Primitives
  import opened Handshake

  /** All labels but Hasty are permitted. */
  ghost predicate Permits(ok: Label -> bool) { forall l: Label :: !l.Hasty? ==> ok(l) }

  /** A label with which side `l.x` neither receives nor sends. */
  predicate Quiet(e: Endpoint, l: Label) {
    l.Move? || l.RemoveKey? || l.ZeroByte? || l.CloseStreams? || l.Hasty? || (l.Advance? && !e.pc.Announcing?)
  }

  /** From `w` to `v` side `x` became `e` and nothing else changed. */
  ghost predicate Only(w: World, v: World, x: Side, e: Endpoint) {
    && v.f == w.f && End(v, x) == e && End(v, Other(x)) == End(w, Other(x))
    && Inbox(v, x) == Inbox(w, x) && Inbox(v, Other(x)) == Inbox(w, Other(x))
  }

  lemma QuietStep(R: World -> bool, ok: Label -> bool, w: World, l: Label, e: Endpoint) returns (v: World)
    requires KeptBy(Next, ok, R) && R(w) && ok(l) && Quiet(End(w, l.x), l)
    requires e == After(w.f, End(w, l.x), multiset{}, l)
    ensures R(v) && Only(w, v, l.x, e)
  {
    v := Take(Next, ok, R, w, l);
    NextAt(w, l);
  }

  // Single steps of one side.

  /** Where the handler's next step does nothing but move it on. */
  predicate Moving(pc: Pc) {
    pc.Deriving? || pc.Storing? || pc.Looking? || pc.Copying? || pc.Cancelling? || pc.ClosingStream?
  }

  lemma JustMoves(f: Scheme, e: Endpoint, l: Label)
    requires l.Advance?
    requires || e.pc.Deriving? || e.pc.Storing? || e.pc.Looking? || e.pc.Copying?
             || e.pc.Cancelling? || e.pc.ClosingStream?
    ensures After(f, e, multiset{}, l) == e.(pc := Proceed(f, e))
  {
    assert !Takes(e, multiset{}, l) && !Registers(e, l) && !Prepares(e, l) && !Marks(e, l) && !Caches(f, e, l);
    assert PcAfter(f, e, multiset{}, l) == Proceed(f, e);
  }

  lemma GoesOn(R: World -> bool, ok: Label -> bool, w: World, x: Side) returns (v: World)
    requires KeptBy(Next, ok, R) && R(w) && Permits(ok)
    requires Moving(End(w, x).pc)
    ensures R(v) && Only(w, v, x, End(w, x).(pc := Proceed(w.f, End(w, x))))
  {
    JustMoves(w.f, End(w, x), Advance(x));
    v := QuietStep(R, ok, w, Advance(x), End(w, x).(pc := Proceed(w.f, End(w, x))));
  }

  lemma CacheStep(f: Scheme, e: Endpoint, l: Label)
    requires l.Advance? && (e.pc.Caching? || e.pc.Computing?) && f.derive(e.priv, e.pc.pub).Some?
    ensures After(f, e, multiset{}, l) == e.(pc := Proceed(f, e), cached := true)
  {
    assert !Takes(e, multiset{}, l);
    assert PcAfter(f, e, multiset{}, l) == e.(pc := Proceed(f, e), cached := true).pc;
  }

  lemma CachesKey(R: World -> bool, ok: Label -> bool, w: World, x: Side) returns (v: World)
    requires KeptBy(Next, ok, R) && R(w) && Permits(ok)
    requires End(w, x).pc.Caching? || End(w, x).pc.Computing?
    requires w.f.derive(End(w, x).priv, End(w, x).pc.pub).Some?
    ensures R(v) && Only(w, v, x, End(w, x).(pc := Proceed(w.f, End(w, x)), cached := true))
  {
    CacheStep(w.f, End(w, x), Advance(x));
    v := QuietStep(R, ok, w, Advance(x), End(w, x).(pc := Proceed(w.f, End(w, x)), cached := true));
  }

  lemma RegisterStep(f: Scheme, e: Endpoint, l: Label)
    requires l.Advance? && e.pc.Registering?
    ensures After(f, e, multiset{}, l) == Registered(e, e.pc.key, e.pc.torn)
  {
    assert !Takes(e, multiset{}, l);
    assert PcAfter(f, e, multiset{}, l) == Registered(e, e.pc.key, e.pc.torn).pc;
  }

  lemma RegistersKey(R: World -> bool, ok: Label -> bool, w: World, x: Side) returns (v: World)
    requires KeptBy(Next, ok, R) && R(w) && Permits(ok) && End(w, x).pc.Registering?
    ensures R(v) && Only(w, v, x, Registered(End(w, x), End(w, x).pc.key, End(w, x).pc.torn))
  {
    RegisterStep(w.f, End(w, x), Advance(x));
    v := QuietStep(R, ok, w, Advance(x), Registered(End(w, x), End(w, x).pc.key, End(w, x).pc.torn));
  }

  lemma RecordStep(f: Scheme, e: Endpoint, l: Label)
    requires l.Advance? && e.pc.Recording?
    ensures After(f, e, multiset{}, l) == e.(pc := Announcing, prepared := true, known := true, everPrepared := true)
  {
    assert !Takes(e, multiset{}, l);
    assert PcAfter(f, e, multiset{}, l) == Announcing;
  }

  lemma RecordsKey(R: World -> bool, ok: Label -> bool, w: World, x: Side) returns (v: World)
    requires KeptBy(Next, ok, R) && R(w) && Permits(ok) && End(w, x).pc.Recording?
    ensures R(v) && Only(w, v, x, End(w, x).(pc := Announcing, prepared := true, known := true, everPrepared := true))
  {
    RecordStep(w.f, End(w, x), Advance(x));
    v := QuietStep(R, ok, w, Advance(x),
                   End(w, x).(pc := Announcing, prepared := true, known := true, everPrepared := true));
  }

  lemma MoveStep(f: Scheme, e: Endpoint, l: Label)
    requires l.Move? && CanTransition(e.conn, l.s) && l.s != Established && !(e.helloSent && l.s == Connected)
    ensures After(f, e, multiset{}, l) == e.(conn := l.s)
  {
    assert !Takes(e, multiset{}, l);
    assert PcAfter(f, e, multiset{}, l) == e.(conn := l.s).pc;
  }

  lemma MovesTo(R: World -> bool, ok: Label -> bool, w: World, x: Side, to: ConnState) returns (v: World)
    requires KeptBy(Next, ok, R) && R(w) && Permits(ok)
    requires CanTransition(End(w, x).conn, to) && to != Established && !(End(w, x).helloSent && to == Connected)
    ensures R(v) && Only(w, v, x, End(w, x).(conn := to))
  {
    MoveStep(w.f, End(w, x), Move(x, to));
    v := QuietStep(R, ok, w, Move(x, to), End(w, x).(conn := to));
  }

  lemma MarkStep(f: Scheme, e: Endpoint, l: Label)
    requires l.Advance? && e.pc.Marking? && e.conn == Connected
    ensures After(f, e, multiset{}, l) == e.(pc := Idle, conn := Established, prepared := false, gotComplete := false)
  {
    assert !Takes(e, multiset{}, l);
    assert PcAfter(f, e, multiset{}, l) == Idle;
  }

  lemma MarksDone(R: World -> bool, ok: Label -> bool, w: World, x: Side) returns (v: World)
    requires KeptBy(Next, ok, R) && R(w) && Permits(ok) && End(w, x).pc.Marking? && End(w, x).conn == Connected
    ensures R(v) && Only(w, v, x, End(w, x).(pc := Idle, conn := Established, prepared := false, gotComplete := false))
  {
    MarkStep(w.f, End(w, x), Advance(x));
    v := QuietStep(R, ok, w, Advance(x),
                   End(w, x).(pc := Idle, conn := Established, prepared := false, gotComplete := false));
  }

  lemma HastyStep(f: Scheme, e: Endpoint, l: Label)
    requires l.Hasty? && e.pc.Announcing? && e.prepared
    ensures After(f, e, multiset{}, l) == e.(pc := Cancelling)
  {
    assert !Takes(e, multiset{}, l);
    assert PcAfter(f, e, multiset{}, l) == e.(pc := Cancelling).pc;
  }

  lemma Hurries(R: World -> bool, ok: Label -> bool, w: World, x: Side) returns (v: World)
    requires KeptBy(Next, ok, R) && R(w)
    requires Permits(ok) && ok(Hasty(x)) && End(w, x).pc.Announcing? && End(w, x).prepared
    ensures R(v) && Only(w, v, x, End(w, x).(pc := Cancelling))
  {
    HastyStep(w.f, End(w, x), Hasty(x));
    v := QuietStep(R, ok, w, Hasty(x), End(w, x).(pc := Cancelling));
  }

  lemma EntryStep(f: Scheme, e: Endpoint, l: Label)
    requires l.RemoveKey? && e.known && e.pc.Storing?
    ensures After(f, e, multiset{}, l) == e.(cached := false)
  {
    assert !Takes(e, multiset{}, l);
    assert PcAfter(f, e, multiset{}, l) == e.(cached := false).pc;
  }

  lemma LosesEntry(R: World -> bool, ok: Label -> bool, w: World, x: Side) returns (v: World)
    requires KeptBy(Next, ok, R) && R(w) && Permits(ok) && End(w, x).known && End(w, x).pc.Storing?
    ensures R(v) && Only(w, v, x, End(w, x).(cached := false))
  {
    EntryStep(w.f, End(w, x), RemoveKey(x));
    v := QuietStep(R, ok, w, RemoveKey(x), End(w, x).(cached := false));
  }

  lemma BufferStep(f: Scheme, e: Endpoint, l: Label)
    requires l.RemoveKey? && e.known && e.cached && e.pc.Copying?
    ensures After(f, e, multiset{}, l) == e.(cached := false, pc := e.pc.(doomed := true))
  {
    assert !Takes(e, multiset{}, l);
    assert PcAfter(f, e, multiset{}, l) == e.(cached := false, pc := e.pc.(doomed := true)).pc;
  }

  lemma LosesBuffer(R: World -> bool, ok: Label -> bool, w: World, x: Side) returns (v: World)
    requires KeptBy(Next, ok, R) && R(w) && Permits(ok) && End(w, x).known && End(w, x).cached && End(w, x).pc.Copying?
    ensures R(v) && Only(w, v, x, End(w, x).(cached := false, pc := End(w, x).pc.(doomed := true)))
  {
    BufferStep(w.f, End(w, x), RemoveKey(x));
    v := QuietStep(R, ok, w, RemoveKey(x), End(w, x).(cached := false, pc := End(w, x).pc.(doomed := true)));
  }

  lemma ByteStep(f: Scheme, e: Endpoint, l: Label, k: Bytes)
    requires l.ZeroByte? && l.i < |k| && k[l.i] != 0 && e.pc == Copying(k, k[..l.i], true, false)
    ensures After(f, e, multiset{}, l) == e.(pc := Copying(k[l.i := 0], k[..l.i], true, true))
  {
    assert !Takes(e, multiset{}, l);
    assert PcAfter(f, e, multiset{}, l) == Copying(k[l.i := 0], k[..l.i], true, true);
  }

  lemma LosesByte(R: World -> bool, ok: Label -> bool, w: World, x: Side, k: Bytes, j: nat) returns (v: World)
    requires KeptBy(Next, ok, R) && R(w) && Permits(ok)
    requires j < |k| && k[j] != 0 && End(w, x).pc == Copying(k, k[..j], true, false)
    ensures R(v) && Only(w, v, x, End(w, x).(pc := Copying(k[j := 0], k[..j], true, true)))
  {
    ByteStep(w.f, End(w, x), ZeroByte(x, j), k);
    v := QuietStep(R, ok, w, ZeroByte(x, j), End(w, x).(pc := Copying(k[j := 0], k[..j], true, true)));
  }

  lemma CloseStep(f: Scheme, e: Endpoint, l: Label)
    requires l.CloseStreams? && e.pc.Idle?
    ensures After(f, e, multiset{}, l) == e.(key := None, allowed := {}, closedSince := true)
  {
    assert !Takes(e, multiset{}, l);
    assert PcAfter(f, e, multiset{}, l) == e.pc;
  }

  lemma ClosesStreams(R: World -> bool, ok: Label -> bool, w: World, x: Side) returns (v: World)
    requires KeptBy(Next, ok, R) && R(w) && Permits(ok) && End(w, x).pc.Idle?
    ensures R(v) && Only(w, v, x, End(w, x).(key := None, allowed := {}, closedSince := true))
  {
    CloseStep(w.f, End(w, x), CloseStreams(x));
    v := QuietStep(R, ok, w, CloseStreams(x), End(w, x).(key := None, allowed := {}, closedSince := true));
  }

  /** EstablishStreams has taken effect. */
  function Registered(e: Endpoint, key: Bytes, torn: bool): Endpoint {
    e.(pc := Recording, torn := torn, key := Some(key), allowed := e.allowed + e.names, closedSince := false)
  }

  /** What PrepareStreams leaves behind. */
  function WithKey(e: Endpoint, key: Bytes, torn: bool): Endpoint {
    Registered(e, key, torn).(pc := Announcing, prepared := true, known := true, everPrepared := true)
  }

  // Stretches of a run.

  lemma FinishesPreparing(R: World -> bool, ok: Label -> bool, w: World, x: Side) returns (v: World)
    requires KeptBy(Next, ok, R) && R(w) && Permits(ok) && End(w, x).pc.Registering?
    ensures R(v) && Only(w, v, x, WithKey(End(w, x), End(w, x).pc.key, End(w, x).pc.torn))
  {
    v := RegistersKey(R, ok, w, x);
    v := RecordsKey(R, ok, v, x);
  }

  /** The first derivation, on an empty cache. */
  lemma DerivesFirst(R: World -> bool, ok: Label -> bool, w: World, x: Side) returns (v: World)
    requires KeptBy(Next, ok, R) && R(w) && Permits(ok)
    requires End(w, x).pc.Deriving? && End(w, x).names != {} && !End(w, x).cached
    requires w.f.derive(End(w, x).priv, End(w, x).pc.pub).Some?
    ensures R(v) && Only(w, v, x, End(w, x).(pc := Storing(End(w, x).pc.pub), cached := true))
  {
    v := GoesOn(R, ok, w, x);
    v := CachesKey(R, ok, v, x);
  }

  lemma LooksUp(R: World -> bool, ok: Label -> bool, w: World, x: Side) returns (v: World)
    requires KeptBy(Next, ok, R) && R(w) && Permits(ok) && End(w, x).pc.Storing?
    requires w.f.derive(End(w, x).priv, End(w, x).pc.pub).Some?
    ensures var e := End(w, x);
      && R(v)
      && Only(w, v, x, e.(pc := if e.cached then Registering(w.f.derive(e.priv, e.pc.pub).value, false)
                                else Computing(e.pc.pub)))
  {
    v := GoesOn(R, ok, w, x);
    v := GoesOn(R, ok, v, x);
  }

  /** PrepareStreams without disturbance: the key is missed once and then found. */
  lemma Prepared(R: World -> bool, ok: Label -> bool, w: World, x: Side) returns (v: World)
    requires KeptBy(Next, ok, R) && R(w) && Permits(ok)
    requires End(w, x).pc.Deriving? && End(w, x).names != {} && !End(w, x).cached
    requires w.f.derive(End(w, x).priv, End(w, x).pc.pub).Some?
    ensures R(v)
    ensures var e := End(w, x);
      Only(w, v, x, WithKey(e, w.f.derive(e.priv, e.pc.pub).value, false).(cached := true))
  {
    v := DerivesFirst(R, ok, w, x);
    v := LooksUp(R, ok, v, x);
    v := FinishesPreparing(R, ok, v, x);
  }

  lemma SaysHello(R: World -> bool, ok: Label -> bool, w: World, x: Side) returns (v: World)
    requires KeptBy(Next, ok, R) && R(w) && Permits(ok) && !End(w, x).helloSent
    ensures R(v) && v.f == w.f && End(v, x) == End(w, x).(helloSent := true)
    ensures End(v, Other(x)) == End(w, Other(x)) && Inbox(v, x) == Inbox(w, x)
    ensures Inbox(v, Other(x)) == Inbox(w, Other(x)) + multiset{Hello}
  {
    v := Take(Next, ok, R, w, SendHello(x));
    NextAt(w, SendHello(x));
  }

  lemma HearBoxes(f: Scheme, e: Endpoint, box: multiset<Msg>, x: Side, m: Msg)
    requires e.pc.Idle? && m in box
    ensures BoxAfter(e, box, Receive(x, m)) == box - multiset{m}
    ensures Out(f, e, box, Receive(x, m)) == if m.Hello? then multiset{PubKey(f.public(e.priv))} else multiset{}
  {}

  /** `x` takes message `m` and becomes `e`. */
  lemma Hears(R: World -> bool, ok: Label -> bool, w: World, x: Side, m: Msg, e: Endpoint) returns (v: World)
    requires KeptBy(Next, ok, R) && R(w) && Permits(ok) && End(w, x).pc.Idle? && m in Inbox(w, x)
    requires e == After(w.f, End(w, x), Inbox(w, x), Receive(x, m))
    ensures R(v) && v.f == w.f && End(v, x) == e
    ensures End(v, Other(x)) == End(w, Other(x)) && Inbox(v, x) == Inbox(w, x) - multiset{m}
    ensures Inbox(v, Other(x)) ==
            Inbox(w, Other(x)) + (if m.Hello? then multiset{PubKey(w.f.public(End(w, x).priv))} else multiset{})
  {
    v := Take(Next, ok, R, w, Receive(x, m));
    NextAt(w, Receive(x, m));
    HearBoxes(w.f, End(w, x), Inbox(w, x), x, m);
  }

  lemma HelloAnswered(R: World -> bool, ok: Label -> bool, w: World, x: Side) returns (v: World)
    requires KeptBy(Next, ok, R) && R(w) && Permits(ok) && End(w, x).pc.Idle? && Hello in Inbox(w, x)
    requires !(End(w, x).prepared && End(w, x).gotComplete)
    ensures R(v) && v.f == w.f && End(v, x) == End(w, x).(heardHello := true)
    ensures End(v, Other(x)) == End(w, Other(x)) && Inbox(v, x) == Inbox(w, x) - multiset{Hello}
    ensures Inbox(v, Other(x)) == Inbox(w, Other(x)) + multiset{PubKey(w.f.public(End(w, x).priv))}
  {
    HearHello(w.f, End(w, x), Inbox(w, x), x);
    v := Hears(R, ok, w, x, Hello, Told(End(w, x), Hello));
  }

  lemma KeyTaken(R: World -> bool, ok: Label -> bool, w: World, x: Side, k: Bytes) returns (v: World)
    requires KeptBy(Next, ok, R) && R(w) && Permits(ok) && End(w, x).pc.Idle? && PubKey(k) in Inbox(w, x)
    ensures R(v) && v.f == w.f && End(v, x) == End(w, x).(heardKey := true, pc := Deriving(k))
    ensures End(v, Other(x)) == End(w, Other(x)) && Inbox(v, x) == Inbox(w, x) - multiset{PubKey(k)}
    ensures Inbox(v, Other(x)) == Inbox(w, Other(x))
  {
    HearKey(w.f, End(w, x), Inbox(w, x), x, k);
    v := Hears(R, ok, w, x, PubKey(k), Told(End(w, x), PubKey(k)));
  }

  lemma OneMore(box: multiset<Msg>, m: Msg)
    ensures m in box + multiset{m} && (box + multiset{m}) - multiset{m} == box
  {}

  /** The exchange that brings the public key of the other side `y` to an idle `x`. */
  lemma KeyArrives(R: World -> bool, ok: Label -> bool, w: World, x: Side, y: Side) returns (v: World)
    requires KeptBy(Next, ok, R) && R(w) && Permits(ok) && y == Other(x) && x == Other(y)
    requires End(w, x).pc == Idle && !End(w, x).helloSent
    requires End(w, y).pc == Idle && !(End(w, y).prepared && End(w, y).gotComplete)
    ensures R(v) && v.f == w.f
    ensures End(v, x) == End(w, x).(pc := Deriving(w.f.public(End(w, y).priv)), helloSent := true, heardKey := true)
    ensures End(v, y) == End(w, y).(heardHello := true)
    ensures Inbox(v, x) == Inbox(w, x) && Inbox(v, y) == Inbox(w, y)
  {
    var k := w.f.public(End(w, y).priv);
    OneMore(Inbox(w, y), Hello);
    OneMore(Inbox(w, x), PubKey(k));
    v := SaysHello(R, ok, w, x);
    v := HelloAnswered(R, ok, v, y);
    v := KeyTaken(R, ok, v, x, k);
  }

  lemma Connects(R: World -> bool, ok: Label -> bool, w: World, x: Side) returns (v: World)
    requires KeptBy(Next, ok, R) && R(w) && Permits(ok) && End(w, x).conn == Disconnected && !End(w, x).helloSent
    ensures R(v) && Only(w, v, x, End(w, x).(conn := Connected))
  {
    v := MovesTo(R, ok, w, x, Connecting);
    v := MovesTo(R, ok, v, x, Connected);
  }

  /** FinalizeHandshake on a Connected peer. */
  lemma Finalized(R: World -> bool, ok: Label -> bool, w: World, x: Side) returns (v: World)
    requires KeptBy(Next, ok, R) && R(w) && Permits(ok) && End(w, x).pc == Cancelling && End(w, x).conn == Connected
    ensures R(v)
    ensures Only(w, v, x, End(w, x).(pc := Idle, conn := Established, prepared := false, gotComplete := false))
  {
    v := GoesOn(R, ok, w, x);
    v := GoesOn(R, ok, v, x);
    v := MarksDone(R, ok, v, x);
  }

  lemma OnePhaseRun(R: World -> bool, ok: Label -> bool, s: World) returns (w: World)
    requires KeptBy(Next, ok, R) && R(s) && Permits(ok) && ok(Hasty(A))
    requires s == Start(s.f, s.a.priv, s.b.priv, s.a.names, s.b.names, Disconnected, false, false)
    requires s.a.names != {} && s.f.derive(s.a.priv, s.f.public(s.b.priv)).Some?
    ensures R(w)
    ensures w.a.conn == Established && !w.b.everPrepared && w.b.allowed == {}
  {
    w := Connects(R, ok, s, A);
    w := KeyArrives(R, ok, w, A, B);
    w := Prepared(R, ok, w, A);
    w := Hurries(R, ok, w, A);
    w := Finalized(R, ok, w, A);
  }

  /** The second phase is needed: from the start, a CompleteHandshake on receipt of the peer's
      key ends Established while the peer has not prepared and accepts nothing. */
  lemma OnePhaseIsNotSafe(f: Scheme, privA: Bytes, privB: Bytes, namesA: set<Name>, namesB: set<Name>)
    requires namesA != {} && f.derive(privA, f.public(privB)).Some?
    ensures exists w :: Reach(Next, Any,
                              Start(f, privA, privB, namesA, namesB, Disconnected, false, false), w)
                        && w.a.conn == Established && !w.b.everPrepared && forall name :: !Accepts(w.b, name)
  {
    var ok, s := Any, Start(f, privA, privB, namesA, namesB, Disconnected, false, false);
    ReachableIsClosed(Next, ok, s);
    var w := OnePhaseRun(w => Reach(Next, ok, s, w), ok, s);
  }

  /** The copy runs to its end over the buffer as it is. */
  lemma {:induction false} CopiesRest(R: World -> bool, ok: Label -> bool, w: World, x: Side) returns (v: World)
    requires KeptBy(Next, ok, R) && R(w) && Permits(ok)
    requires End(w, x).pc.Copying? && |End(w, x).pc.done| <= |End(w, x).pc.buf|
    ensures R(v)
    ensures var e := End(w, x);
      Only(w, v, x, e.(pc := Registering(Expected(e.pc.buf, e.pc.done), e.pc.torn)))
    decreases |End(w, x).pc.buf| - |End(w, x).pc.done|
  {
    var e := End(w, x);
    CopiesOn(e.pc.buf, e.pc.done);
    v := GoesOn(R, ok, w, x);
    if |e.pc.done| < |e.pc.buf| { v := CopiesRest(R, ok, v, x); }
  }

  /** A cleanup removes the key between the two derivations, so that the second misses too, */
  lemma MissesTwice(R: World -> bool, ok: Label -> bool, w: World, x: Side) returns (v: World)
    requires KeptBy(Next, ok, R) && R(w) && Permits(ok)
    requires End(w, x).pc.Deriving? && End(w, x).names != {} && !End(w, x).cached && End(w, x).known
    requires w.f.derive(End(w, x).priv, End(w, x).pc.pub).Some?
    ensures R(v)
    ensures var k := w.f.derive(End(w, x).priv, End(w, x).pc.pub).value;
      Only(w, v, x, End(w, x).(pc := Copying(k, [], false, false), cached := true))
  {
    v := DerivesFirst(R, ok, w, x);
    v := LosesEntry(R, ok, v, x);
    v := LooksUp(R, ok, v, x);
    v := CachesKey(R, ok, v, x);
  }

  /** The copy goes on up to byte `j`. */
  lemma {:induction false} CopiesUpTo(R: World -> bool, ok: Label -> bool, w: World, x: Side, k: Bytes, i: nat, j: nat)
    returns (v: World)
    requires KeptBy(Next, ok, R) && R(w) && Permits(ok)
    requires i <= j <= |k| && End(w, x).pc == Copying(k, k[..i], false, false)
    ensures R(v) && Only(w, v, x, End(w, x).(pc := Copying(k, k[..j], false, false)))
    decreases j - i
  {
    if i == j {
      v := w;
    } else {
      assert k[..i] + [k[i]] == k[..i + 1];
      v := GoesOn(R, ok, w, x);
      v := CopiesUpTo(R, ok, v, x, k, i + 1, j);
    }
  }

  /** and another one removes the key that the second is copying. */
  lemma CopyDisturbed(R: World -> bool, ok: Label -> bool, w: World, x: Side, k: Bytes, j: nat) returns (v: World)
    requires KeptBy(Next, ok, R) && R(w) && Permits(ok) && End(w, x).known && End(w, x).cached
    requires j < |k| && k[j] != 0 && End(w, x).pc == Copying(k, [], false, false)
    ensures R(v) && Only(w, v, x, End(w, x).(cached := false, pc := Registering(k[j := 0], true)))
  {
    assert k[..0] == [];
    v := CopiesUpTo(R, ok, w, x, k, 0, j);
    v := LosesBuffer(R, ok, v, x);
    v := LosesByte(R, ok, v, x, k, j);
    v := CopiesRest(R, ok, v, x);
    assert Expected(k[j := 0], k[..j]) == k[j := 0];
  }

  lemma PreparedTorn(R: World -> bool, ok: Label -> bool, w: World, x: Side, j: nat) returns (v: World)
    requires KeptBy(Next, ok, R) && R(w) && Permits(ok)
    requires End(w, x).pc.Deriving? && End(w, x).names != {} && !End(w, x).cached && End(w, x).known
    requires w.f.derive(End(w, x).priv, End(w, x).pc.pub).Some?
    requires var k := w.f.derive(End(w, x).priv, End(w, x).pc.pub).value; j < |k| && k[j] != 0
    ensures R(v)
    ensures var k := w.f.derive(End(w, x).priv, End(w, x).pc.pub).value;
      Only(w, v, x, WithKey(End(w, x), k[j := 0], true))
  {
    v := MissesTwice(R, ok, w, x);
    v := CopyDisturbed(R, ok, v, x, w.f.derive(End(w, x).priv, End(w, x).pc.pub).value, j);
    v := FinishesPreparing(R, ok, v, x);
  }

  /** `x` announces; the other side gets one more Complete. */
  lemma Announces(R: World -> bool, ok: Label -> bool, w: World, x: Side) returns (v: World)
    requires KeptBy(Next, ok, R) && R(w) && Permits(ok) && End(w, x).pc == Announcing && !End(w, x).gotComplete
    ensures R(v) && v.f == w.f && End(v, x) == End(w, x).(pc := Idle, announced := true)
    ensures End(v, Other(x)) == End(w, Other(x)) && Inbox(v, x) == Inbox(w, x)
    ensures Inbox(v, Other(x)) == Inbox(w, Other(x)) + multiset{Complete}
  {
    v := Take(Next, ok, R, w, Advance(x));
    NextAt(w, Advance(x));
  }

  /** `x`, prepared, hears Complete and finalises. */
  lemma Completes(R: World -> bool, ok: Label -> bool, w: World, x: Side) returns (v: World)
    requires KeptBy(Next, ok, R) && R(w) && Permits(ok)
    requires End(w, x).pc == Idle && End(w, x).prepared && End(w, x).conn == Connected
    requires Complete in Inbox(w, x)
    ensures R(v) && End(v, Other(x)) == End(w, Other(x))
    ensures End(v, x).conn == Established && End(v, x).key == End(w, x).key && End(v, x).torn == End(w, x).torn
  {
    HearComplete(w.f, End(w, x), Inbox(w, x), x);
    v := Hears(R, ok, w, x, Complete, Told(End(w, x), Complete));
    v := Finalized(R, ok, v, x);
  }

  lemma TornKeyRun(R: World -> bool, ok: Label -> bool, s: World, j: nat) returns (w: World)
    requires KeptBy(Next, ok, R) && R(s) && Permits(ok)
    requires s == Start(s.f, s.a.priv, s.b.priv, s.a.names, s.b.names, Disconnected, false, true)
    requires s.a.names != {} && s.b.names != {} && s.f.derive(s.a.priv, s.f.public(s.b.priv)).Some?
    requires s.f.derive(s.b.priv, s.f.public(s.a.priv)) == s.f.derive(s.a.priv, s.f.public(s.b.priv))
    requires var k := s.f.derive(s.a.priv, s.f.public(s.b.priv)).value; j < |k| && k[j] != 0
    ensures R(w) && w.a.conn == Established && w.a.key == s.f.derive(s.a.priv, s.f.public(s.b.priv))
    ensures w.b.key == Some(w.a.key.value[j := 0]) && !w.b.closedSince && w.b.allowed == s.b.names
  {
    w := Connects(R, ok, s, A);
    w := Connects(R, ok, w, B);
    w := KeyArrives(R, ok, w, B, A);
    w := PreparedTorn(R, ok, w, B, j);
    w := Announces(R, ok, w, B);
    w := KeyArrives(R, ok, w, A, B);
    w := Prepared(R, ok, w, A);
    w := Announces(R, ok, w, A);
    w := Completes(R, ok, w, A);
  }

  /** The key clause needs its condition: two-phase handshake between nodes of which one knows
      the other from before, with cleanups of an earlier connection still under way at that
      one, ends with it accepting streams under a key that has lost a byte. */
  lemma TornKeyHappens(f: Scheme, privA: Bytes, privB: Bytes, namesA: set<Name>, namesB: set<Name>, j: nat)
    requires namesA != {} && namesB != {} && f.derive(privA, f.public(privB)).Some?
    requires f.derive(privB, f.public(privA)) == f.derive(privA, f.public(privB))
    requires j < |f.derive(privA, f.public(privB)).value| && f.derive(privA, f.public(privB)).value[j] != 0
    ensures exists w :: Reach(Next, (l: Label) => !l.Hasty?,
                              Start(f, privA, privB, namesA, namesB, Disconnected, false, true), w)
                        && w.a.conn == Established && w.a.key == f.derive(privA, f.public(privB))
                        && !w.b.closedSince && w.b.key == Some(w.a.key.value[j := 0]) && w.b.key != w.a.key
                        && forall name :: name in namesB ==> Accepts(w.b, name)
  {
    var ok, s := (l: Label) => !l.Hasty?, Start(f, privA, privB, namesA, namesB, Disconnected, false, true);
    ReachableIsClosed(Next, ok, s);
    var w := TornKeyRun(w => Reach(Next, ok, s, w), ok, s, j);
  }

  lemma StaleRun(R: World -> bool, ok: Label -> bool, s: World) returns (w: World)
    requires KeptBy(Next, ok, R) && R(s) && Permits(ok)
    requires s == Start(s.f, s.a.priv, s.b.priv, s.a.names, s.b.names, Disconnected, false, false)
    requires s.a.names != {} && s.b.names != {} && s.f.derive(s.a.priv, s.f.public(s.b.priv)).Some?
    requires s.f.derive(s.b.priv, s.f.public(s.a.priv)).Some?
    ensures R(w) && w.a.conn == Established
    ensures w.b.conn == Disconnected && w.b.everPrepared && w.b.closedSince && w.b.allowed == {}
  {
    w := Connects(R, ok, s, A);
    w := Connects(R, ok, w, B);
    w := KeyArrives(R, ok, w, B, A);
    w := Prepared(R, ok, w, B);
    w := Announces(R, ok, w, B);
    w := KeyArrives(R, ok, w, A, B);
    w := Prepared(R, ok, w, A);
    w := Announces(R, ok, w, A);
    w := MovesTo(R, ok, w, B, Disconnected);
    w := ClosesStreams(R, ok, w, B);
    w := Completes(R, ok, w, A);
  }

  /** Acceptance needs its condition too: a node announces, loses the connection and cleans
      up; its Complete arrives late and establishes its peer, whose streams it refuses. */
  lemma StaleEstablished(f: Scheme, privA: Bytes, privB: Bytes, namesA: set<Name>, namesB: set<Name>)
    requires namesA != {} && namesB != {}
    requires f.derive(privA, f.public(privB)).Some? && f.derive(privB, f.public(privA)).Some?
    ensures exists w :: Reach(Next, (l: Label) => !l.Hasty?,
                              Start(f, privA, privB, namesA, namesB, Disconnected, false, false), w)
                        && w.a.conn == Established && w.b.conn == Disconnected && w.b.everPrepared && w.b.closedSince
                        && forall name :: !Accepts(w.b, name)
  {
    var ok, s := (l: Label) => !l.Hasty?, Start(f, privA, privB, namesA, namesB, Disconnected, false, false);
    ReachableIsClosed(Next, ok, s);
    var w := StaleRun(w => Reach(Next, ok, s, w), ok, s);
  }
}
