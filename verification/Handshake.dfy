/** The two-phase handshake between two nodes (node.go, PrepareStreams and
    FinalizeHandshake), driven by the application role of README.md and of the integration
    test: Hello is answered with the public key, a public key with PrepareStreams and then
    Complete, and FinalizeHandshake runs once the node is prepared and Complete has come.

    Each node runs one message handler, interleaved at every step with the other node, the
    network (loss, duplication, reordering), the connection manager (any table move except
    into Established) and the cleanup of a disconnected peer (cleanupPeerResources:
    CloseStreams, and then the removal of the cached key, possible once the address book
    knows the peer's public key). PrepareStreams derives the key twice, through the crypto
    module's cache; a cached key is the derived one and a miss is copied after unlocking,
    byte by byte (module KeyCache), so a removal may tear the copy. */
module Handshake {
  import opened Runs
  import opened States
  import opened Basics
  import opened Primitives

  type Name = string

  /** The part of the crypto module the handshake uses. */
  datatype Scheme = Scheme(derive: (Bytes, Bytes) -> Option<Bytes>, public: Bytes -> Bytes)

  function SchemeOf(p: Prims): Scheme {
    Scheme((priv, pub) => Derive(p, priv, pub), priv => PublicOf(p, priv))
  }

  datatype Msg = Hello | PubKey(key: Bytes) | Complete

  /** Where the message handler stands: inside PrepareStreams from Deriving to Recording,
      inside FinalizeHandshake from Cancelling on. */
  datatype Pc =
    | Idle
    | Deriving(pub: Bytes)      // first derivation: look the key up
    | Caching(pub: Bytes)       // it missed: store the key
    | Storing(pub: Bytes)       // connection manager, stream handlers
    | Looking(pub: Bytes)       // EstablishStreams: look the key up
    | Computing(pub: Bytes)     // it missed: store the key
    | Copying(buf: Bytes, done: Bytes, doomed: bool, torn: bool)
    | Registering(key: Bytes, torn: bool)
    | Recording                 // address book
    | Announcing
    | Cancelling
    | ClosingStream
    | Marking

  datatype Endpoint = Endpoint(
    priv: Bytes, names: set<Name>, conn: ConnState, pc: Pc,
    // the application's flags
    helloSent: bool, prepared: bool, gotComplete: bool,
    // the peer's key: in the cache, in the address book
    cached: bool, known: bool,
    // the stream manager's entries for the peer
    key: Option<Bytes>, allowed: set<Name>,
    // history: a removal cost the key a byte before it was copied
    torn: bool,
    // history: PrepareStreams returned; CloseStreams ran after it registered
    everPrepared: bool, closedSince: bool,
    heardHello: bool, heardKey: bool, heardComplete: bool, announced: bool)

  datatype World = World(f: Scheme, a: Endpoint, b: Endpoint, toA: multiset<Msg>, toB: multiset<Msg>, deliveries: nat)

  datatype Side = A | B

  datatype Label =
    | SendHello(x: Side)
    | Receive(x: Side, m: Msg)
    | Advance(x: Side)
    | Abort(x: Side)               // the handler's current call returns an error
    | Lose(x: Side, m: Msg)
    | Duplicate(x: Side, m: Msg)
    | Move(x: Side, s: ConnState)
    | CloseStreams(x: Side)
    | RemoveKey(x: Side)           // RemovePeerKeyByEd25519 takes the cached key
    | ZeroByte(x: Side, i: nat)    // and zeroes a byte of its buffer
    | Unrecorded(x: Side)          // the address book refuses the public key
    | Hasty(x: Side)               // FinalizeHandshake without waiting for Complete, as in CompleteHandshake

  function New(priv: Bytes, names: set<Name>, conn: ConnState, known: bool): Endpoint {
    Endpoint(priv, names, conn, Idle, false, false, false, false, known, None, {}, false, false, false,
             false, false, false, false)
  }

  /** Two nodes that have heard nothing; their books may know each other from before. */
  function Start(f: Scheme, privA: Bytes, privB: Bytes, namesA: set<Name>, namesB: set<Name>, conn: ConnState,
                 knownA: bool, knownB: bool): World {
    World(f, New(privA, namesA, conn, knownA), New(privB, namesB, conn, knownB), multiset{}, multiset{}, 0)
  }

  function End(w: World, x: Side): Endpoint { if x.A? then w.a else w.b }

  function Other(x: Side): Side { if x.A? then B else A }

  function Inbox(w: World, x: Side): multiset<Msg> { if x.A? then w.toA else w.toB }

  /** Put endpoint `e` and inbox `box` at `x`, and send `out` to the other side. */
  function Put(w: World, x: Side, e: Endpoint, box: multiset<Msg>, out: multiset<Msg>): World {
    if x.A? then w.(a := e, toA := box, toB := w.toB + out)
    else w.(b := e, toB := box, toA := w.toA + out)
  }

  /** The handler takes message `l.m`. */
  predicate Takes(e: Endpoint, box: multiset<Msg>, l: Label) { l.Receive? && e.pc.Idle? && l.m in box }

  /** EstablishStreams takes effect. */
  predicate Registers(e: Endpoint, l: Label) { l.Advance? && e.pc.Registering? }

  /** PrepareStreams returns with success. */
  predicate Prepares(e: Endpoint, l: Label) { (l.Advance? || l.Unrecorded?) && e.pc.Recording? }

  /** A derivation stores its key in the cache. */
  predicate Caches(f: Scheme, e: Endpoint, l: Label) {
    l.Advance? && (e.pc.Caching? || e.pc.Computing?) && f.derive(e.priv, e.pc.pub).Some?
  }

  /** A removal finds the public key in the book. */
  predicate Removes(e: Endpoint, l: Label) { l.RemoveKey? && e.known }

  /** MarkEstablished with success. */
  predicate Marks(e: Endpoint, l: Label) { l.Advance? && e.pc.Marking? && CanTransition(e.conn, Established) }

  predicate Moves(e: Endpoint, l: Label) { l.Move? && CanTransition(e.conn, l.s) && l.s != Established }

  /** After a message the application finalises if it is prepared and Complete has come. */
  function Rest(prepared: bool, gotComplete: bool): Pc { if prepared && gotComplete then Cancelling else Idle }

  function Proceed(f: Scheme, e: Endpoint): Pc {
    match e.pc
    case Idle => Idle
    case Deriving(pub) =>
      if e.names == {} then Idle else if e.cached then Storing(pub) else Caching(pub)
    case Caching(pub) => if f.derive(e.priv, pub).None? then Idle else Storing(pub)
    case Storing(pub) => Looking(pub)
    case Looking(pub) =>
      var k := f.derive(e.priv, pub);
      if !e.cached then Computing(pub) else if k.None? then Idle else Registering(k.value, false)
    case Computing(pub) =>
      var k := f.derive(e.priv, pub);
      if k.None? then Idle else Copying(k.value, [], false, false)
    case Copying(buf, done, doomed, torn) =>
      if |done| < |buf| then Copying(buf, done + [buf[|done|]], doomed, torn) else Registering(done, torn)
    case Registering(_, _) => Recording
    case Recording => Announcing
    case Announcing => Rest(e.prepared, e.gotComplete)
    case Cancelling => ClosingStream
    case ClosingStream => Marking
    case Marking => Idle
  }

  /** What a removal of the cached key does to a copy in progress. */
  function Disturbed(e: Endpoint, l: Label): Pc {
    if !e.pc.Copying? then e.pc
    else if Removes(e, l) && e.cached then e.pc.(doomed := true)
    else if l.ZeroByte? && e.pc.doomed && l.i < |e.pc.buf| then
      Copying(e.pc.buf[l.i := 0], e.pc.done, true, e.pc.torn || (|e.pc.done| <= l.i && e.pc.buf[l.i] != 0))
    else e.pc
  }

  function PcAfter(f: Scheme, e: Endpoint, box: multiset<Msg>, l: Label): Pc {
    if Takes(e, box, l) then
      (match l.m
       case Hello => Rest(e.prepared, e.gotComplete)
       case PubKey(k) => Deriving(k)
       case Complete => Rest(e.prepared, true))
    else if l.Advance? then Proceed(f, e)
    else if l.Abort? then Idle
    else if l.Unrecorded? && e.pc.Recording? then Announcing
    else if l.Hasty? && (e.pc.Idle? || e.pc.Announcing?) && e.prepared then Cancelling
    else Disturbed(e, l)
  }

  /** The endpoint at a label's side afterwards. Success of MarkEstablished drops the
      application's flags; a new connection brings a new Connected event to answer. */
  function After(f: Scheme, e: Endpoint, box: multiset<Msg>, l: Label): Endpoint {
    var takes, registers, prepares, marks := Takes(e, box, l), Registers(e, l), Prepares(e, l), Marks(e, l);
    Endpoint(
      e.priv, e.names,
      if marks then Established else if Moves(e, l) then l.s else e.conn,
      PcAfter(f, e, box, l),
      (e.helloSent || l.SendHello?) && !(Moves(e, l) && l.s == Connected),
      (e.prepared || prepares) && !marks,
      (e.gotComplete || (takes && l.m.Complete?)) && !marks,
      (e.cached || Caches(f, e, l)) && !Removes(e, l),
      e.known || (prepares && l.Advance?),
      if registers then Some(e.pc.key) else if l.CloseStreams? then None else e.key,
      if registers then e.allowed + e.names else if l.CloseStreams? then {} else e.allowed,
      if registers then e.pc.torn else e.torn,
      e.everPrepared || prepares,
      (e.closedSince || l.CloseStreams?) && !registers,
      e.heardHello || (takes && l.m.Hello?),
      e.heardKey || (takes && l.m.PubKey?),
      e.heardComplete || (takes && l.m.Complete?),
      e.announced || (l.Advance? && e.pc.Announcing?))
  }

  /** Its inbox afterwards. */
  function BoxAfter(e: Endpoint, box: multiset<Msg>, l: Label): multiset<Msg> {
    if Takes(e, box, l) || l.Lose? then box - multiset{l.m}
    else if l.Duplicate? && l.m in box then box + multiset{l.m}
    else box
  }

  /** What it sends to the other side. */
  function Out(f: Scheme, e: Endpoint, box: multiset<Msg>, l: Label): multiset<Msg> {
    if l.SendHello? && !e.helloSent then multiset{Hello}
    else if Takes(e, box, l) && l.m.Hello? then multiset{PubKey(f.public(e.priv))}
    else if l.Advance? && e.pc.Announcing? then multiset{Complete}
    else multiset{}
  }

  function Next(w: World, l: Label): World {
    var e, box := End(w, l.x), Inbox(w, l.x);
    Put(w, l.x, After(w.f, e, box, l), BoxAfter(e, box, l), Out(w.f, e, box, l))
      .(deliveries := w.deliveries + if Takes(e, box, l) then 1 else 0)
  }

  /** What the network may do, whatever the nodes are at: lose a message and deliver it twice; */
  lemma NetworkExactly(w: World, x: Side, m: Msg)
    requires m in Inbox(w, x)
    ensures Inbox(Next(w, Lose(x, m)), x) == Inbox(w, x) - multiset{m} && End(Next(w, Lose(x, m)), x) == End(w, x)
    ensures Inbox(Next(w, Duplicate(x, m)), x) == Inbox(w, x) + multiset{m}
    ensures End(Next(w, Duplicate(x, m)), x) == End(w, x)
  {
    NextAt(w, Lose(x, m));
    Untouched(w.f, End(w, x), Inbox(w, x), Lose(x, m));
    NextAt(w, Duplicate(x, m));
    Untouched(w.f, End(w, x), Inbox(w, x), Duplicate(x, m));
  }

  lemma Untouched(f: Scheme, e: Endpoint, box: multiset<Msg>, l: Label)
    requires l.Lose? || l.Duplicate?
    ensures After(f, e, box, l) == e
  {}

  /** and the connection manager: move a connection along any edge of the table but into
      Established, a new connection being one the application has not greeted yet. */
  lemma MovesExactly(w: World, x: Side, s: ConnState)
    ensures var e, d := End(w, x), End(Next(w, Move(x, s)), x);
      var moves := s != Established && CanTransition(e.conn, s);
      d.conn == (if moves then s else e.conn) && d.helloSent == (e.helloSent && !(moves && s == Connected))
  {
    NextAt(w, Move(x, s));
  }

  /** The allow and key checks of HandleIncomingStream and of a lazy open. */
  predicate Accepts(e: Endpoint, name: Name) { name in e.allowed && e.key.Some? }

  // ---- Safety ----

  /** `s` is `k` except for bytes lost to zeroing, of which there is one exactly when `torn`. */
  ghost predicate TornCopy(s: Bytes, k: Bytes, torn: bool) { |s| == |k| && Mixed(s, k) && (s == k <==> !torn) }

  /** What a copy in progress will be if nothing disturbs it further. */
  function Expected(buf: Bytes, done: Bytes): Bytes
    requires |done| <= |buf|
  {
    done + buf[|done|..]
  }

  ghost predicate KeyOk(k: Option<Bytes>, pc: Pc) {
    match pc
    case Copying(buf, done, doomed, torn) =>
      && k.Some? && |done| <= |buf| && TornCopy(Expected(buf, done), k.value, torn)
      && (forall i :: 0 <= i < |buf| && i < |k.value| ==> buf[i] == k.value[i] || buf[i] == 0)
    case Registering(key, torn) => k.Some? && TornCopy(key, k.value, torn)
    case _ => true
  }

  predicate Reading(pc: Pc) { pc.Deriving? || pc.Caching? || pc.Storing? || pc.Looking? || pc.Computing? }

  predicate Finishing(pc: Pc) { pc.Cancelling? || pc.ClosingStream? || pc.Marking? }

  /** The part that speaks of keys; `pub` is the peer's public key. */
  ghost predicate KeysOk(f: Scheme, x: Endpoint, pub: Bytes) {
    && (Reading(x.pc) ==> x.pc.pub == pub)
    && KeyOk(f.derive(x.priv, pub), x.pc)
    && (x.key.Some? ==>
          f.derive(x.priv, pub).Some? && TornCopy(x.key.value, f.derive(x.priv, pub).value, x.torn))
  }

  /** The part that speaks of the protocol; `ready` is that the peer has ever prepared, and
      `hasty` that the application may finalise without waiting. */
  ghost predicate FlagsOk(x: Endpoint, ready: bool, hasty: bool) {
    && (x.gotComplete ==> ready)
    && (x.prepared ==> x.everPrepared)
    && (x.pc.Announcing? ==> x.everPrepared)
    && (Finishing(x.pc) || x.conn == Established ==> x.everPrepared && (hasty || ready))
    && (x.allowed == if x.key.Some? then x.names else {})
    && ((x.everPrepared || x.pc.Recording?) && !x.closedSince ==> x.key.Some?)
    && (x.closedSince ==> x.key.None?)
  }

  ghost predicate EndOk(f: Scheme, x: Endpoint, pub: Bytes, ready: bool, hasty: bool) {
    KeysOk(f, x, pub) && FlagsOk(x, ready, hasty)
  }

  ghost predicate BoxOk(box: multiset<Msg>, pub: Bytes, ready: bool) {
    (Complete in box ==> ready) && (forall k :: PubKey(k) in box ==> k == pub)
  }

  ghost predicate SideOk(f: Scheme, x: Endpoint, y: Endpoint, toX: multiset<Msg>, hasty: bool) {
    EndOk(f, x, f.public(y.priv), y.everPrepared, hasty) && BoxOk(toX, f.public(y.priv), y.everPrepared)
  }

  ghost predicate Ok(w: World, hasty: bool) {
    SideOk(w.f, w.a, w.b, w.toA, hasty) && SideOk(w.f, w.b, w.a, w.toB, hasty)
  }

  /** A removal costs the copy exactly the bytes it zeroes ahead of it. */
  lemma ZeroedAhead(buf: Bytes, done: Bytes, i: nat, k: Bytes, torn: bool)
    requires |done| <= |buf| && i < |buf| && TornCopy(Expected(buf, done), k, torn)
    requires forall j :: 0 <= j < |buf| && j < |k| ==> buf[j] == k[j] || buf[j] == 0
    ensures TornCopy(Expected(buf[i := 0], done), k, torn || (|done| <= i && buf[i] != 0))
  {
    var old', new' := Expected(buf, done), Expected(buf[i := 0], done);
    assert new' == if |done| <= i then old'[i := 0] else old';
    assert |done| <= i ==> old'[i] == buf[i];
    if |done| <= i && buf[i] != 0 { assert new'[i] != k[i]; }
    if |done| <= i && buf[i] == 0 { assert new' == old'; }
  }

  lemma CopiesOn(buf: Bytes, done: Bytes)
    requires |done| <= |buf|
    ensures |done| < |buf| ==> Expected(buf, done + [buf[|done|]]) == Expected(buf, done)
    ensures |done| == |buf| ==> Expected(buf, done) == done
  {}

  /** A side's own turn keeps its own keys in order, */
  lemma OwnKeysOk(f: Scheme, x: Endpoint, pub: Bytes, ready: bool, box: multiset<Msg>, l: Label)
    requires KeysOk(f, x, pub) && BoxOk(box, pub, ready)
    ensures KeysOk(f, After(f, x, box, l), pub)
  {
    if x.pc.Copying? { CopyOk(f, x, f.derive(x.priv, pub), box, l); } else { LookupOk(f, x, pub, ready, box, l); }
  }

  lemma LookupOk(f: Scheme, x: Endpoint, pub: Bytes, ready: bool, box: multiset<Msg>, l: Label)
    requires KeysOk(f, x, pub) && BoxOk(box, pub, ready) && !x.pc.Copying?
    ensures var pc := PcAfter(f, x, box, l); KeyOk(f.derive(x.priv, pub), pc) && (Reading(pc) ==> pc.pub == pub)
  {}

  lemma CopyOk(f: Scheme, x: Endpoint, k: Option<Bytes>, box: multiset<Msg>, l: Label)
    requires x.pc.Copying? && KeyOk(k, x.pc)
    ensures KeyOk(k, PcAfter(f, x, box, l)) && !Reading(PcAfter(f, x, box, l))
  {
    CopiesOn(x.pc.buf, x.pc.done);
    if l.ZeroByte? && l.i < |x.pc.buf| { ZeroedAhead(x.pc.buf, x.pc.done, l.i, k.value, x.pc.torn); }
  }

  /** and its own flags. */
  lemma OwnFlagsOk(f: Scheme, x: Endpoint, pub: Bytes, ready: bool, hasty: bool, box: multiset<Msg>, l: Label)
    requires FlagsOk(x, ready, hasty) && BoxOk(box, pub, ready) && (l.Hasty? ==> hasty)
    ensures FlagsOk(After(f, x, box, l), ready, hasty)
  {
    if Registers(x, l) { assert x.allowed + x.names == x.names; }
    HandlerOk(f, x, pub, ready, hasty, box, l);
  }

  lemma HandlerOk(f: Scheme, x: Endpoint, pub: Bytes, ready: bool, hasty: bool, box: multiset<Msg>, l: Label)
    requires FlagsOk(x, ready, hasty) && BoxOk(box, pub, ready) && (l.Hasty? ==> hasty)
    ensures var x' := After(f, x, box, l);
      && (x'.gotComplete ==> ready)
      && (x'.pc.Announcing? ==> x'.everPrepared)
      && (Finishing(x'.pc) || x'.conn == Established ==> x'.everPrepared && (hasty || ready))
  {}

  lemma OwnBoxOk(x: Endpoint, pub: Bytes, ready: bool, box: multiset<Msg>, l: Label)
    requires BoxOk(box, pub, ready)
    ensures BoxOk(BoxAfter(x, box, l), pub, ready)
  {}

  /** It keeps its identity, never un-prepares, and sends only its key and true Completes. */
  lemma TurnIsHonest(f: Scheme, x: Endpoint, ready: bool, hasty: bool, box: multiset<Msg>, l: Label)
    requires FlagsOk(x, ready, hasty)
    ensures var x' := After(f, x, box, l);
      && x'.priv == x.priv && x'.names == x.names && (x.everPrepared ==> x'.everPrepared)
      && BoxOk(Out(f, x, box, l), f.public(x.priv), x'.everPrepared)
  {}

  lemma PeerGrows(f: Scheme, y: Endpoint, pub: Bytes, ready: bool, ready': bool, hasty: bool,
                  box: multiset<Msg>, out: multiset<Msg>)
    requires EndOk(f, y, pub, ready, hasty) && BoxOk(box, pub, ready) && (ready ==> ready') && BoxOk(out, pub, ready')
    ensures EndOk(f, y, pub, ready', hasty) && BoxOk(box + out, pub, ready')
  {}

  ghost predicate SameParties(w: World, v: World) {
    && w.a.priv == v.a.priv && w.a.names == v.a.names
    && w.b.priv == v.b.priv && w.b.names == v.b.names
    && (forall x, y :: v.f.derive(x, y) == w.f.derive(x, y)) && (forall x :: v.f.public(x) == w.f.public(x))
  }

  /** A step, seen from the side that takes it. */
  lemma NextAt(w: World, l: Label)
    ensures var v := Next(w, l); var x, y := l.x, Other(l.x);
      && v.f == w.f
      && End(v, x) == After(w.f, End(w, x), Inbox(w, x), l) && Inbox(v, x) == BoxAfter(End(w, x), Inbox(w, x), l)
      && End(v, y) == End(w, y) && Inbox(v, y) == Inbox(w, y) + Out(w.f, End(w, x), Inbox(w, x), l)
      && v.deliveries == w.deliveries + (if Takes(End(w, x), Inbox(w, x), l) then 1 else 0)
  {
    var e, box := End(w, l.x), Inbox(w, l.x);
    PutAt(w, l.x, After(w.f, e, box, l), BoxAfter(e, box, l), Out(w.f, e, box, l));
  }

  lemma PutAt(w: World, x: Side, e: Endpoint, box: multiset<Msg>, out: multiset<Msg>)
    ensures var v := Put(w, x, e, box, out);
      && v.f == w.f && v.deliveries == w.deliveries && End(v, x) == e && Inbox(v, x) == box
      && End(v, Other(x)) == End(w, Other(x)) && Inbox(v, Other(x)) == Inbox(w, Other(x)) + out
  {}

  lemma OkAt(w: World, x: Side, hasty: bool)
    ensures Ok(w, hasty) <==> SideOk(w.f, End(w, x), End(w, Other(x)), Inbox(w, x), hasty)
                              && SideOk(w.f, End(w, Other(x)), End(w, x), Inbox(w, Other(x)), hasty)
  {}

  lemma StepOk(w: World, l: Label, hasty: bool)
    requires Ok(w, hasty) && (l.Hasty? ==> hasty)
    ensures Ok(Next(w, l), hasty) && SameParties(w, Next(w, l))
  {
    NextAt(w, l);
    OkAt(w, l.x, hasty);
    OkAt(Next(w, l), l.x, hasty);
    var f, x, y, box := w.f, End(w, l.x), End(w, Other(l.x)), Inbox(w, l.x);
    OwnKeysOk(f, x, f.public(y.priv), y.everPrepared, box, l);
    OwnFlagsOk(f, x, f.public(y.priv), y.everPrepared, hasty, box, l);
    OwnBoxOk(x, f.public(y.priv), y.everPrepared, box, l);
    TurnIsHonest(f, x, y.everPrepared, hasty, box, l);
    PeerGrows(f, y, f.public(x.priv), x.everPrepared, After(f, x, box, l).everPrepared, hasty,
              Inbox(w, Other(l.x)), Out(f, x, box, l));
  }

  lemma {:induction false} RunOk(w: World, run: seq<Label>, hasty: bool)
    requires Ok(w, hasty) && forall l :: l in run ==> l.Hasty? ==> hasty
    ensures Ok(Exec(Next, w, run), hasty) && SameParties(w, Exec(Next, w, run))
    decreases |run|
  {
    if |run| > 0 {
      RunOk(w, run[..|run| - 1], hasty);
      StepOk(Exec(Next, w, run[..|run| - 1]), run[|run| - 1], hasty);
    }
  }

  /** What a node that is Established may rely on. Both have completed PrepareStreams; the
      peer accepts a name if and only if it registered it and has not run CloseStreams since;
      unless it has, its key is the agreed one exactly when no removal tore it; and unless
      either has, both hold the same key if neither was torn, and not if one was. */
  ghost predicate Safe(me: Endpoint, peer: Endpoint, agreed: Option<Bytes>) {
    && me.everPrepared && peer.everPrepared
    && (forall name :: Accepts(peer, name) <==> name in peer.names && !peer.closedSince)
    && (!peer.closedSince ==> agreed.Some? && peer.key.Some? && (peer.key == agreed <==> !peer.torn))
    && (!peer.closedSince && !me.closedSince ==>
          (!me.torn && !peer.torn ==> me.key == peer.key) && (me.torn != peer.torn ==> me.key != peer.key))
  }

  lemma OkIsSafe(p: Prims, w: World, x: Side, hasty: bool)
    requires Lawful(p) && |w.a.priv| == KEY_SIZE && |w.b.priv| == KEY_SIZE && Ok(w, hasty)
    requires forall a, b :: w.f.derive(a, b) == Derive(p, a, b)
    requires forall a :: w.f.public(a) == PublicOf(p, a)
    requires End(w, x).conn == Established
    ensures End(w, x).everPrepared && (!hasty ==> End(w, Other(x)).everPrepared)
    ensures Safe(End(w, x), End(w, Other(x)), Derive(p, w.a.priv, PublicOf(p, w.b.priv)))
            <==> End(w, Other(x)).everPrepared
  {
    Agreement(p, w.a.priv, w.b.priv);
    OkAt(w, x, hasty);
  }

  /** Two-phase safety, in every reachable state, under any interleaving, loss, duplication
      and reordering, with timeouts, disconnects, cleanups and reconnections on both sides:
      when a node is Established, what it may rely on holds. */
  lemma TwoPhaseSafety(p: Prims, privA: Bytes, privB: Bytes, namesA: set<Name>, namesB: set<Name>,
                       knownA: bool, knownB: bool, run: seq<Label>, x: Side)
    requires Lawful(p) && |privA| == KEY_SIZE && |privB| == KEY_SIZE
    requires forall l :: l in run ==> !l.Hasty?
    ensures var w := Exec(Next, Start(SchemeOf(p), privA, privB, namesA, namesB, Disconnected, knownA, knownB), run);
      && w.a.names == namesA && w.b.names == namesB
      && (End(w, x).conn == Established ==>
            Safe(End(w, x), End(w, Other(x)), Derive(p, privA, PublicOf(p, privB))))
  {
    var s := Start(SchemeOf(p), privA, privB, namesA, namesB, Disconnected, knownA, knownB);
    RunOk(s, run, false);
    if End(Exec(Next, s, run), x).conn == Established { OkIsSafe(p, Exec(Next, s, run), x, false); }
  }

  /** With an application that may finalise on its own preparation alone, as CompleteHandshake
      does, an Established node can rely on all of that if and only if its peer had prepared. */
  lemma OnePhaseSafeExactly(p: Prims, privA: Bytes, privB: Bytes, namesA: set<Name>, namesB: set<Name>,
                            knownA: bool, knownB: bool, run: seq<Label>, x: Side)
    requires Lawful(p) && |privA| == KEY_SIZE && |privB| == KEY_SIZE
    ensures var w := Exec(Next, Start(SchemeOf(p), privA, privB, namesA, namesB, Disconnected, knownA, knownB), run);
      End(w, x).conn == Established ==>
        (Safe(End(w, x), End(w, Other(x)), Derive(p, privA, PublicOf(p, privB))) <==> End(w, Other(x)).everPrepared)
  {
    var s := Start(SchemeOf(p), privA, privB, namesA, namesB, Disconnected, knownA, knownB);
    RunOk(s, run, true);
    if End(Exec(Next, s, run), x).conn == Established { OkIsSafe(p, Exec(Next, s, run), x, true); }
  }

  // ---- Completion ----

  /** The symmetric flow on a reliable network without timeout or disconnect. */
  predicate Symmetric(l: Label) { l.SendHello? || l.Receive? || l.Advance? }

  /** How many copies of `m` are on their way from `y` to `x`. */
  function Due(f: Scheme, x: Endpoint, y: Endpoint, m: Msg): nat {
    match m
    case Hello => if y.helloSent && !x.heardHello then 1 else 0
    case PubKey(k) => if k == f.public(y.priv) && y.heardHello && !x.heardKey then 1 else 0
    case Complete => if y.announced && !x.heardComplete then 1 else 0
  }

  ghost predicate NetFlows(f: Scheme, x: Endpoint, y: Endpoint, toX: multiset<Msg>) {
    && (forall m :: toX[m] == Due(f, x, y, m))
    && (x.heardHello ==> y.helloSent) && (x.heardKey ==> y.heardHello) && (x.heardComplete ==> y.announced)
  }

  /** The state of one handler; `pub` is the peer's public key. */
  ghost predicate Local(f: Scheme, x: Endpoint, pub: Bytes) {
    var done := x.conn == Established;
    && (x.announced ==> x.heardKey)
    && (x.conn == Connected || done)
    && x.names != {} && f.derive(x.priv, pub).Some?
    && x.gotComplete == (x.heardComplete && !done)
    && (x.cached ==> x.heardKey)
    && (match x.pc
        case Idle => x.announced == x.heardKey && done == (x.heardKey && x.heardComplete)
                     && x.prepared == (x.heardKey && !done)
        case Announcing => x.heardKey && !x.announced && !done && x.prepared
        case Cancelling => x.heardKey && x.announced && x.heardComplete && !done && x.prepared
        case ClosingStream => x.heardKey && x.announced && x.heardComplete && !done && x.prepared
        case Marking => x.heardKey && x.announced && x.heardComplete && !done && x.prepared
        case Copying(_, _, _, _) => false
        case Computing(_) => false
        case Registering(_, _) => x.heardKey && !x.announced && !done && !x.prepared
        case Recording => x.heardKey && !x.announced && !done && !x.prepared
        case _ => x.pc.pub == pub && x.heardKey && !x.announced && !done && !x.prepared
                  && (x.cached <==> x.pc.Storing? || x.pc.Looking?))
  }

  ghost predicate SideFlows(f: Scheme, x: Endpoint, y: Endpoint, toX: multiset<Msg>) {
    Local(f, x, f.public(y.priv)) && NetFlows(f, x, y, toX)
  }

  function Heard(e: Endpoint): nat {
    (if e.heardHello then 1 else 0) + (if e.heardKey then 1 else 0) + (if e.heardComplete then 1 else 0)
  }

  ghost predicate Flows(w: World) {
    && SideFlows(w.f, w.a, w.b, w.toA) && SideFlows(w.f, w.b, w.a, w.toB)
    && w.deliveries == Heard(w.a) + Heard(w.b)
  }

  /** Steps of PrepareStreams and of the announcement still to come. */
  function Preparing(pc: Pc): nat {
    match pc
    case Deriving(_) => 7
    case Caching(_) => 6
    case Storing(_) => 5
    case Looking(_) => 4
    case Registering(_, _) => 3
    case Recording => 2
    case Announcing => 1
    case _ => 0
  }

  /** Steps of FinalizeHandshake still to come. */
  function Finalizing(e: Endpoint): nat {
    if e.conn == Established then 0 else if e.pc.Marking? then 1 else if e.pc.ClosingStream? then 2 else 3
  }

  /** Steps a side still has to take: its hello, three messages, seven steps of preparation
      and three of finalisation. */
  function Left(e: Endpoint): nat {
    (if e.helloSent then 0 else 1) + (if e.heardHello then 0 else 1) + (if e.heardKey then 0 else 8)
    + (if e.heardComplete then 0 else 1) + Preparing(e.pc) + Finalizing(e)
  }

  function Measure(w: World): nat { Left(w.a) + Left(w.b) }

  /** The effect of one label of the flow on the inbox of its own side, */
  lemma OwnInbox(f: Scheme, x: Endpoint, y: Endpoint, toX: multiset<Msg>, l: Label)
    requires NetFlows(f, x, y, toX) && Symmetric(l)
    ensures NetFlows(f, After(f, x, toX, l), y, BoxAfter(x, toX, l))
  {
    var x', box := After(f, x, toX, l), BoxAfter(x, toX, l);
    if Takes(x, toX, l) { assert toX[l.m] == Due(f, x, y, l.m); }
    forall m ensures box[m] == Due(f, x', y, m) { assert toX[m] == Due(f, x, y, m); }
  }

  /** and of the other side. */
  lemma PeerInbox(f: Scheme, x: Endpoint, y: Endpoint, toX: multiset<Msg>, toY: multiset<Msg>, l: Label)
    requires SideFlows(f, x, y, toX) && NetFlows(f, y, x, toY) && Symmetric(l)
    ensures NetFlows(f, y, After(f, x, toX, l), toY + Out(f, x, toX, l))
  {
    var x', out := After(f, x, toX, l), Out(f, x, toX, l);
    if Takes(x, toX, l) { assert toX[l.m] == Due(f, x, y, l.m); }
    forall m ensures (toY + out)[m] == Due(f, y, x', m) { assert toY[m] == Due(f, y, x, m); }
  }

  /** An idle handler after message `m`. */
  function Told(e: Endpoint, m: Msg): Endpoint {
    match m
    case Hello => e.(heardHello := true, pc := Rest(e.prepared, e.gotComplete))
    case PubKey(k) => e.(heardKey := true, pc := Deriving(k))
    case Complete => e.(heardComplete := true, gotComplete := true, pc := Rest(e.prepared, true))
  }

  lemma HearHello(f: Scheme, e: Endpoint, box: multiset<Msg>, x: Side)
    requires e.pc.Idle? && Hello in box
    ensures After(f, e, box, Receive(x, Hello)) == Told(e, Hello)
  {}

  lemma HearKey(f: Scheme, e: Endpoint, box: multiset<Msg>, x: Side, k: Bytes)
    requires e.pc.Idle? && PubKey(k) in box
    ensures After(f, e, box, Receive(x, PubKey(k))) == Told(e, PubKey(k))
  {}

  lemma HearComplete(f: Scheme, e: Endpoint, box: multiset<Msg>, x: Side)
    requires e.pc.Idle? && Complete in box
    ensures After(f, e, box, Receive(x, Complete)) == Told(e, Complete)
  {}

  lemma HearStep(f: Scheme, e: Endpoint, box: multiset<Msg>, x: Side, m: Msg)
    requires e.pc.Idle? && m in box
    ensures After(f, e, box, Receive(x, m)) == Told(e, m)
  {
    match m
    case Hello => HearHello(f, e, box, x);
    case PubKey(k) => HearKey(f, e, box, x, k);
    case Complete => HearComplete(f, e, box, x);
  }

  lemma OwnLocal(f: Scheme, x: Endpoint, y: Endpoint, toX: multiset<Msg>, l: Label)
    requires SideFlows(f, x, y, toX) && Symmetric(l)
    ensures Local(f, After(f, x, toX, l), f.public(y.priv))
  {
    if Takes(x, toX, l) { assert toX[l.m] == Due(f, x, y, l.m); }
  }

  /** Every step of a side that changes anything is one of those it had left. */
  lemma OneLess(f: Scheme, x: Endpoint, y: Endpoint, toX: multiset<Msg>, l: Label)
    requires SideFlows(f, x, y, toX) && Symmetric(l)
    ensures var x' := After(f, x, toX, l);
      && Heard(x') == Heard(x) + (if Takes(x, toX, l) then 1 else 0)
      && (Left(x') == Left(x) - 1 || (x' == x && Out(f, x, toX, l) == multiset{} && BoxAfter(x, toX, l) == toX))
  {
    if Takes(x, toX, l) { OneHeard(f, x, y, toX, l); }
  }

  lemma OneHeard(f: Scheme, x: Endpoint, y: Endpoint, toX: multiset<Msg>, l: Label)
    requires SideFlows(f, x, y, toX) && Takes(x, toX, l)
    ensures Heard(After(f, x, toX, l)) == Heard(x) + 1 && Left(After(f, x, toX, l)) == Left(x) - 1
  {
    assert toX[l.m] == Due(f, x, y, l.m);
    HearStep(f, x, toX, l.x, l.m);
    ToldLeft(f, x, f.public(y.priv), l.m);
  }

  lemma ToldLeft(f: Scheme, x: Endpoint, pub: Bytes, m: Msg)
    requires Local(f, x, pub) && x.pc.Idle?
    requires match m case Hello => !x.heardHello case PubKey(_) => !x.heardKey case Complete => !x.heardComplete
    ensures Heard(Told(x, m)) == Heard(x) + 1 && Left(Told(x, m)) == Left(x) - 1
  {}

  lemma FlowStep(w: World, l: Label)
    requires Flows(w) && Symmetric(l)
    ensures Flows(Next(w, l))
    ensures Next(w, l) == w || Measure(Next(w, l)) == Measure(w) - 1
  {
    var x, y, toX, toY := End(w, l.x), End(w, Other(l.x)), Inbox(w, l.x), Inbox(w, Other(l.x));
    OwnInbox(w.f, x, y, toX, l);
    PeerInbox(w.f, x, y, toX, toY, l);
    OwnLocal(w.f, x, y, toX, l);
    OneLess(w.f, x, y, toX, l);
    NextAt(w, l);
    FlowsAt(w, l.x);
    FlowsAt(Next(w, l), l.x);
    assert Local(w.f, y, w.f.public(After(w.f, x, toX, l).priv));
  }

  lemma FlowsAt(w: World, x: Side)
    ensures Flows(w) <==>
      && SideFlows(w.f, End(w, x), End(w, Other(x)), Inbox(w, x))
      && SideFlows(w.f, End(w, Other(x)), End(w, x), Inbox(w, Other(x)))
      && w.deliveries == Heard(End(w, x)) + Heard(End(w, Other(x)))
    ensures Measure(w) == Left(End(w, x)) + Left(End(w, Other(x)))
  {}

  /** No label of the flow can change the world any more. */
  ghost predicate Quiescent(w: World) { forall l :: Symmetric(l) ==> Next(w, l) == w }

  lemma QuiescentIsDone(w: World)
    requires Flows(w) && Quiescent(w)
    ensures w.a.conn == Established && w.b.conn == Established && w.deliveries == 6 && Measure(w) == 0
  {
    SettledSide(w, A);
    SettledSide(w, B);
  }

  /** In a quiescent world a side is outside any call, has said hello and has heard all that
      is due to it. */
  lemma SettledSide(w: World, x: Side)
    requires Flows(w) && Quiescent(w)
    ensures End(w, x).pc.Idle? && End(w, x).helloSent
    ensures var e, y := End(w, x), End(w, Other(x));
      (y.helloSent ==> e.heardHello) && (y.heardHello ==> e.heardKey) && (y.announced ==> e.heardComplete)
  {
    var e, y := End(w, x), End(w, Other(x));
    SettledHandler(w, x);
    FlowsAt(w, x);
    NothingDue(w, x, Hello);
    NothingDue(w, x, PubKey(w.f.public(y.priv)));
    NothingDue(w, x, Complete);
  }

  lemma SettledHandler(w: World, x: Side)
    requires Flows(w) && Quiescent(w)
    ensures End(w, x).pc.Idle? && End(w, x).helloSent
  {
    assert Next(w, SendHello(x)) == w && Next(w, Advance(x)) == w;
    NextAt(w, SendHello(x));
    NextAt(w, Advance(x));
    FlowsAt(w, x);
  }

  lemma NothingDue(w: World, x: Side, m: Msg)
    requires Flows(w) && Quiescent(w) && End(w, x).pc.Idle?
    ensures Due(w.f, End(w, x), End(w, Other(x)), m) == 0
  {
    assert Next(w, Receive(x, m)) == w;
    NextAt(w, Receive(x, m));
    FlowsAt(w, x);
    assert Inbox(w, x)[m] == Due(w.f, End(w, x), End(w, Other(x)), m);
  }

  /** Completion: whatever the interleaving and the order of deliveries, a run of the
      symmetric flow between two connected nodes never gets stuck before both are
      Established, and has then made exactly six deliveries and 28 steps that changed
      anything; it never makes more, so it cannot go on for ever. */
  lemma {:induction false} HandshakeCompletes(p: Prims, privA: Bytes, privB: Bytes,
                                              namesA: set<Name>, namesB: set<Name>,
                                              knownA: bool, knownB: bool, run: seq<Label>)
    requires Lawful(p) && |privA| == KEY_SIZE && |privB| == KEY_SIZE && namesA != {} && namesB != {}
    requires Derive(p, privA, PublicOf(p, privB)).Some?
    requires forall l :: l in run ==> Symmetric(l)
    ensures var s := Start(SchemeOf(p), privA, privB, namesA, namesB, Connected, knownA, knownB);
      var w := Exec(Next, s, run);
      && Flows(w) && w.deliveries <= 6 && Measure(w) + Effective(s, run) == 28
      && (Quiescent(w) ==>
            w.a.conn == Established && w.b.conn == Established && w.deliveries == 6 && Effective(s, run) == 28)
    decreases |run|
  {
    Agreement(p, privA, privB);
    var s := Start(SchemeOf(p), privA, privB, namesA, namesB, Connected, knownA, knownB);
    if |run| > 0 {
      HandshakeCompletes(p, privA, privB, namesA, namesB, knownA, knownB, run[..|run| - 1]);
      FlowStep(Exec(Next, s, run[..|run| - 1]), run[|run| - 1]);
    }
    if Quiescent(Exec(Next, s, run)) { QuiescentIsDone(Exec(Next, s, run)); }
  }

  /** Number of steps of a run that change the world. */
  ghost function Effective(w: World, run: seq<Label>): nat
    decreases |run|
  {
    if |run| == 0 then 0 else
    var v := Exec(Next, w, run[..|run| - 1]);
    Effective(w, run[..|run| - 1]) + (if Next(v, run[|run| - 1]) == v then 0 else 1)
  }
}
