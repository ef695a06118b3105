/** The stream registry (pkg/streams/manager.go) with lazy double-checked opening: the lock
    is dropped around network I/O, so an open has a checking section, a dial and a storing
    section, interleaved with incoming streams, closing, shutdown and read loops that end.

    The nested maps of the source are one map from slots; a stream object is an index into
    a store of all streams ever created, and remembers the open that created it, if any. */
module Streams {
  import opened Runs

  type Peer = string
  type Name = string

  const HANDSHAKE: Name := "handshake"

  datatype Kind = Encrypted | Plain

  datatype Slot = Slot(kind: Kind, peer: Peer, name: Name)

  datatype Creator = Remote | Opener(t: nat)

  /** `shut`: its network stream has been closed and its cipher wiped. */
  datatype Stream = Stream(slot: Slot, origin: Creator, closed: bool, shut: bool)

  datatype Error = NotAllowed | NoKey | DialFailed

  /** A call of a lazy open. */
  datatype Open =
    | Idle
    | Dialing(slot: Slot)
    | Holding(slot: Slot, id: nat)
    | Opened(slot: Slot, id: nat)
    | Failed(error: Error)

  datatype Registry = Registry(streams: map<Slot, nat>, objs: seq<Stream>,
                               allowed: map<Peer, set<Name>>, keys: set<Peer>, opens: map<nat, Open>)

  datatype Label =
    | Establish(p: Peer, names: set<Name>, derived: bool)  // derived: the key derivation succeeded
    | Check(t: nat, slot: Slot)
    | Dial(t: nat, ok: bool)
    | Store(t: nat)
    | Incoming(p: Peer, name: Name)
    | IncomingHandshake(p: Peer)
    | CloseHandshake(p: Peer)
    | CloseStreams(p: Peer)
    | Shutdown
    | ReaderEnds(id: nat)

  function New(): Registry { Registry(map[], [], map[], {}, map[]) }

  function OpenOf(g: Registry, t: nat): Open { if t in g.opens then g.opens[t] else Idle }

  /** The registry holds a stream for the slot that is not closed. */
  predicate Live(g: Registry, slot: Slot) {
    slot in g.streams && g.streams[slot] < |g.objs| && !g.objs[g.streams[slot]].closed
  }

  predicate Allowed(g: Registry, p: Peer, name: Name) { p in g.allowed && name in g.allowed[p] }

  /** Close: it does nothing to a stream that is marked closed (module StreamLife). */
  function Closing(o: Stream): Stream { if o.closed then o else o.(closed := true, shut := true) }

  function CloseAt(objs: seq<Stream>, id: nat): seq<Stream> {
    if id < |objs| then objs[id := Closing(objs[id])] else objs
  }

  /** The read loop ends and marks the stream closed. */
  function MarkAt(objs: seq<Stream>, id: nat): seq<Stream> {
    if id < |objs| then objs[id := objs[id].(closed := true)] else objs
  }

  function CloseAll(objs: seq<Stream>, ids: set<nat>): (r: seq<Stream>)
    ensures |r| == |objs|
  {
    seq(|objs|, i requires 0 <= i < |objs| => if i in ids then Closing(objs[i]) else objs[i])
  }

  /** The entries of a peer. */
  function Of(streams: map<Slot, nat>, p: Peer): map<Slot, nat> {
    map s | s in streams && s.peer == p :: streams[s]
  }

  function Without(streams: map<Slot, nat>, p: Peer): map<Slot, nat> {
    map s | s in streams && s.peer != p :: streams[s]
  }

  /** Accept a stream the peer opened, unless the slot is taken by an open one. */
  function Accept(g: Registry, slot: Slot): Registry {
    if Live(g, slot) then g
    else g.(streams := g.streams[slot := |g.objs|], objs := g.objs + [Stream(slot, Remote, false, false)])
  }

  function CheckResult(g: Registry, slot: Slot): Open {
    if Live(g, slot) then Opened(slot, g.streams[slot])
    else if slot.kind.Encrypted? && !Allowed(g, slot.peer, slot.name) then Failed(NotAllowed)
    else if slot.kind.Encrypted? && slot.peer !in g.keys then Failed(NoKey)
    else Dialing(slot)
  }

  function Next(g: Registry, l: Label): Registry {
    match l
    case Establish(p, names, derived) =>
      if names == {} || !derived then g
      else g.(keys := g.keys + {p},
              allowed := g.allowed[p := (if p in g.allowed then g.allowed[p] else {}) + names])
    case Check(t, slot) =>
      if !OpenOf(g, t).Idle? then g else g.(opens := g.opens[t := CheckResult(g, slot)])
    case Dial(t, ok) =>
      if !OpenOf(g, t).Dialing? then g
      else if !ok then g.(opens := g.opens[t := Failed(DialFailed)])
      else
        var slot := OpenOf(g, t).slot;
        g.(objs := g.objs + [Stream(slot, Opener(t), false, false)], opens := g.opens[t := Holding(slot, |g.objs|)])
    case Store(t) =>
      if !OpenOf(g, t).Holding? then g else
      var Holding(slot, id) := OpenOf(g, t);
      if Live(g, slot)
      then g.(objs := CloseAt(g.objs, id), opens := g.opens[t := Opened(slot, g.streams[slot])])
      else g.(streams := g.streams[slot := id], opens := g.opens[t := Opened(slot, id)])
    case Incoming(p, name) =>
      if Allowed(g, p, name) && p in g.keys then Accept(g, Slot(Encrypted, p, name)) else g
    case IncomingHandshake(p) => Accept(g, Slot(Plain, p, HANDSHAKE))
    case CloseHandshake(p) =>
      var slot := Slot(Plain, p, HANDSHAKE);
      if slot in g.streams
      then g.(objs := CloseAt(g.objs, g.streams[slot]), streams := g.streams - {slot}) else g
    case CloseStreams(p) =>
      g.(objs := CloseAll(g.objs, Of(g.streams, p).Values), streams := Without(g.streams, p),
         allowed := g.allowed - {p}, keys := g.keys - {p})
    case Shutdown =>
      g.(objs := CloseAll(g.objs, g.streams.Values), streams := map[], allowed := map[], keys := {})
    case ReaderEnds(id) => g.(objs := MarkAt(g.objs, id))
  }

  // ---- Invariants ----

  /** A peer has a set of names exactly when it has a key, and the set is not empty. */
  ghost predicate Coherent(g: Registry) {
    g.allowed.Keys == g.keys && forall p :: p in g.allowed ==> g.allowed[p] != {}
  }

  ghost predicate OpenOk(g: Registry, t: nat, o: Open) {
    && (o.Holding? ==> o.id < |g.objs| && g.objs[o.id].slot == o.slot && g.objs[o.id].origin == Opener(t))
    && (o.Failed? ==> o.error != NoKey)
  }

  /** Entries are streams of their own slot that no open still holds. */
  ghost predicate EntryOk(g: Registry, slot: Slot)
    requires slot in g.streams
  {
    var id := g.streams[slot];
    && id < |g.objs| && g.objs[id].slot == slot
    && (g.objs[id].origin.Opener? ==> OpenOf(g, g.objs[id].origin.t) != Holding(slot, id))
  }

  /** Stream `id` is held by the unfinished open that created it. */
  predicate Held(g: Registry, id: nat)
    requires id < |g.objs|
  {
    var o := g.objs[id];
    o.origin.Opener? && OpenOf(g, o.origin.t) == Holding(o.slot, id)
  }

  predicate Registered(g: Registry, id: nat)
    requires id < |g.objs|
  {
    g.objs[id].slot in g.streams && g.streams[g.objs[id].slot] == id
  }

  ghost predicate Ok(g: Registry) {
    && Coherent(g)
    && (forall slot :: slot in g.streams ==> EntryOk(g, slot))
    && (forall t :: t in g.opens ==> OpenOk(g, t, g.opens[t]))
    && (forall id :: 0 <= id < |g.objs| ==> Accounted(g, id))
  }

  lemma StepCoherent(g: Registry, l: Label)
    requires Ok(g)
    ensures Coherent(Next(g, l))
  {}

  lemma StepEntries(g: Registry, l: Label, slot: Slot)
    requires Ok(g) && slot in Next(g, l).streams
    ensures EntryOk(Next(g, l), slot)
  {
    if slot in g.streams { assert EntryOk(g, slot); }
    if l.Store? && l.t in g.opens { assert OpenOk(g, l.t, g.opens[l.t]); }
  }

  lemma StepOpens(g: Registry, l: Label, t: nat)
    requires Ok(g) && t in Next(g, l).opens
    ensures OpenOk(Next(g, l), t, Next(g, l).opens[t])
  {
    if t in g.opens { assert OpenOk(g, t, g.opens[t]); }
  }

  /** Closing a peer's streams, or shutting down, closes all that was registered. */
  lemma ClosingClosesAll(g: Registry, p: Peer, id: nat)
    requires Ok(g) && id < |g.objs|
    ensures Registered(g, id) && g.objs[id].slot.peer == p ==> Next(g, CloseStreams(p)).objs[id].closed
    ensures Registered(g, id) ==> Next(g, Shutdown).objs[id].closed
    ensures g.objs[id].slot.peer != p ==> Next(g, CloseStreams(p)).objs[id] == g.objs[id]
    ensures forall name, k :: Slot(k, p, name) !in Next(g, CloseStreams(p)).streams
  {
    var slot := g.objs[id].slot;
    if Registered(g, id) {
      assert slot.peer == p ==> slot in Of(g.streams, p) && Of(g.streams, p)[slot] == id;
    }
  }

  predicate Accounted(g: Registry, id: nat)
    requires id < |g.objs|
  {
    g.objs[id].closed || Held(g, id) || Registered(g, id)
  }

  lemma StepLeavesNoOrphan(g: Registry, l: Label, id: nat)
    requires Ok(g) && id < |Next(g, l).objs|
    ensures Accounted(Next(g, l), id)
  {
    if id < |g.objs| {
      assert Accounted(g, id);
      match l
      case Store(t) => StoreLeavesNoOrphan(g, t, id);
      case CloseStreams(p) => ClosingClosesAll(g, p, id);
      case Shutdown => ClosingClosesAll(g, g.objs[id].slot.peer, id);
      case Incoming(p, name) => AcceptLeavesNoOrphan(g, Slot(Encrypted, p, name), id);
      case IncomingHandshake(p) => AcceptLeavesNoOrphan(g, Slot(Plain, p, HANDSHAKE), id);
      case _ =>
    }
  }

  lemma AcceptLeavesNoOrphan(g: Registry, slot: Slot, id: nat)
    requires Ok(g) && id < |g.objs|
    ensures Accounted(Accept(g, slot), id)
  {
    assert Accounted(g, id);
    if slot in g.streams { assert EntryOk(g, slot); }
  }

  lemma StoreLeavesNoOrphan(g: Registry, t: nat, id: nat)
    requires Ok(g) && id < |g.objs|
    ensures Accounted(Next(g, Store(t)), id)
  {
    assert Accounted(g, id);
    var slot := g.objs[id].slot;
    if slot in g.streams { assert EntryOk(g, slot); }
    if t in g.opens { assert OpenOk(g, t, g.opens[t]); }
  }

  lemma StepOk(g: Registry, l: Label)
    requires Ok(g)
    ensures Ok(Next(g, l))
  {
    StepCoherent(g, l);
    forall slot | slot in Next(g, l).streams ensures EntryOk(Next(g, l), slot) { StepEntries(g, l, slot); }
    forall t | t in Next(g, l).opens ensures OpenOk(Next(g, l), t, Next(g, l).opens[t]) { StepOpens(g, l, t); }
    var n := Next(g, l);
    forall id | 0 <= id < |n.objs| ensures Accounted(n, id) {
      StepLeavesNoOrphan(g, l, id);
    }
  }

  lemma RunOk(run: seq<Label>)
    ensures Ok(Exec(Next, New(), run))
  {
    forall g, l | Ok(g) ensures Ok(Next(g, l)) { StepOk(g, l); }
    Invariant(Next, Ok, New(), run);
  }

  /** No orphaned streams: in every interleaving, each stream ever created is closed, or held
      by exactly one unfinished open (for its own slot) and not registered, or the registry
      entry of its own peer and name and of no other slot, and held by no open. */
  lemma NoOrphanedStreams(run: seq<Label>, id: nat)
    ensures var g := Exec(Next, New(), run);
      id < |g.objs| ==>
        var o := g.objs[id];
        && (o.closed || Held(g, id) || Registered(g, id))
        && !(Held(g, id) && Registered(g, id))
        && (forall t :: OpenOf(g, t).Holding? && OpenOf(g, t).id == id ==> Held(g, id) && o.origin == Opener(t))
        && (forall slot :: slot in g.streams && g.streams[slot] == id ==> slot == o.slot)
  {
    RunOk(run);
    var g := Exec(Next, New(), run);
    if id < |g.objs| {
      assert Accounted(g, id);
      if g.objs[id].slot in g.streams { assert EntryOk(g, g.objs[id].slot); }
      forall t | OpenOf(g, t).Holding? && OpenOf(g, t).id == id ensures Held(g, id) && g.objs[id].origin == Opener(t) {
        assert OpenOk(g, t, g.opens[t]);
      }
      forall slot | slot in g.streams && g.streams[slot] == id ensures slot == g.objs[id].slot {
        assert EntryOk(g, slot);
      }
    }
  }

  /** Registry coherence: names and key of a peer come and go together, the set is never
      empty, and so neither "no shared key" branch is ever taken. */
  lemma RegistryIsCoherent(run: seq<Label>, p: Peer, name: Name, t: nat)
    ensures var g := Exec(Next, New(), run);
      && (p in g.allowed <==> p in g.keys)
      && (p in g.allowed ==> g.allowed[p] != {})
      && (Allowed(g, p, name) ==> p in g.keys)
      && OpenOf(g, t) != Failed(NoKey)
  {
    RunOk(run);
    var g := Exec(Next, New(), run);
    if t in g.opens { assert OpenOk(g, t, g.opens[t]); }
  }

  /** Every lazy open that completes returns the registry entry of that moment: the one it
      found open, or its own. If its own lost the race it is closed. */
  lemma OpenReturnsTheEntry(g: Registry, l: Label, t: nat)
    requires Ok(g) && (l.Check? || l.Store?) && l.t == t
    requires !OpenOf(g, t).Opened? && OpenOf(Next(g, l), t).Opened?
    ensures var n := Next(g, l); var Opened(slot, id) := OpenOf(n, t);
      && slot in n.streams && n.streams[slot] == id < |n.objs| && n.objs[id].slot == slot
      && (l.Check? ==> slot == l.slot && !n.objs[id].closed && n.streams == g.streams)
      && (l.Store? ==> var mine := OpenOf(g, t).id;
            && slot == OpenOf(g, t).slot
            && (Live(g, slot) ==> id == g.streams[slot] && !n.objs[id].closed && n.objs[mine].closed)
            && (!Live(g, slot) ==> id == mine))
  {
    StepOk(g, l);
    assert EntryOk(Next(g, l), OpenOf(Next(g, l), t).slot);
    if t in g.opens { assert OpenOk(g, t, g.opens[t]); }
    if l.Store? && OpenOf(g, t).slot in g.streams { assert EntryOk(g, OpenOf(g, t).slot); }
  }

  // ---- Network streams and keys left behind ----

  /** The read loop of stream `id` ended before anything closed the stream. */
  predicate ReaderEndedFirst(g: Registry, run: seq<Label>, id: nat)
    decreases |run|
  {
    |run| > 0 &&
    var n, l := Exec(Next, g, run[..|run| - 1]), run[|run| - 1];
    ReaderEndedFirst(g, run[..|run| - 1], id) || (l == ReaderEnds(id) && id < |n.objs| && !n.objs[id].closed)
  }

  lemma EndStep(g: Registry, l: Label, id: nat)
    requires id < |Next(g, l).objs|
    ensures var o := Next(g, l).objs[id];
      && (o.shut ==> id < |g.objs| && (g.objs[id].shut || (o.closed && !g.objs[id].closed && l != ReaderEnds(id))))
      && (id < |g.objs| && g.objs[id].shut ==> o.shut)
      && (id < |g.objs| && g.objs[id].closed ==> o == g.objs[id])
      && (id < |g.objs| && !g.objs[id].closed && o.closed ==> (o.shut <==> l != ReaderEnds(id) || g.objs[id].shut))
      && (id >= |g.objs| ==> !o.closed && !o.shut)
      && (l == ReaderEnds(id) && id < |g.objs| ==> o.closed)
  {}

  lemma ObjectsStay(g: Registry, l: Label)
    ensures |g.objs| <= |Next(g, l).objs|
  {}

  /** In every run: a stream has been shut exactly when it is closed and its reader did not
      end first; so, of the streams that are neither registered nor held by an open, those
      that still have an open network stream and a live key are exactly those whose reader
      ended first. Closing such a stream, replacing it, or shutting down does not help. */
  lemma {:induction false} LeftOpenExactly(run: seq<Label>, id: nat)
    ensures var g := Exec(Next, New(), run);
      && (ReaderEndedFirst(New(), run, id) ==> id < |g.objs|)
      && (id < |g.objs| ==>
            && (g.objs[id].shut <==> g.objs[id].closed && !ReaderEndedFirst(New(), run, id))
            && (ReaderEndedFirst(New(), run, id) ==> g.objs[id].closed)
            && (!Held(g, id) && !Registered(g, id) ==> (!g.objs[id].shut <==> ReaderEndedFirst(New(), run, id))))
    decreases |run|
  {
    if |run| > 0 {
      var init, l := run[..|run| - 1], run[|run| - 1];
      LeftOpenExactly(init, id);
      ObjectsStay(Exec(Next, New(), init), l);
      if id < |Exec(Next, New(), run).objs| { EndStep(Exec(Next, New(), init), l, id); }
    }
    NoOrphanedStreams(run, id);
  }

  /** Such a stream is left behind: a handshake stream whose reader ends, and which the peer's
      next one replaces. */
  lemma ReplacedStaysOpen(p: Peer)
    ensures var g := Exec(Next, New(), [IncomingHandshake(p), ReaderEnds(0)] + [IncomingHandshake(p)]);
      |g.objs| == 2 && !g.objs[0].shut && !Registered(g, 0) && !Held(g, 0)
  {
    Short(Next, New(), IncomingHandshake(p), ReaderEnds(0));
    Then(Next, New(), [IncomingHandshake(p), ReaderEnds(0)], IncomingHandshake(p));
  }

  // ---- What the sections do, said of the state alone ----

  /** The check of an open: an open stream is returned; an encrypted one whose name is not
      allowed is refused; and every other is dialled. */
  lemma CheckExactly(g: Registry, t: nat, slot: Slot)
    requires Ok(g) && OpenOf(g, t).Idle?
    ensures var n, o := Next(g, Check(t, slot)), OpenOf(Next(g, Check(t, slot)), t);
      && (o == Failed(NotAllowed) <==> slot.kind.Encrypted? && !Live(g, slot) && !Allowed(g, slot.peer, slot.name))
      && (o == Dialing(slot) <==> !Live(g, slot) && (slot.kind.Encrypted? ==> Allowed(g, slot.peer, slot.name)))
      && (o.Opened? <==> Live(g, slot)) && (o.Opened? ==> o == Opened(slot, g.streams[slot]))
      && (forall u :: u != t ==> OpenOf(n, u) == OpenOf(g, u))
      && n.streams == g.streams && n.objs == g.objs && n.allowed == g.allowed && n.keys == g.keys
  {}

  /** The names of `p` after a section, */
  predicate AllowedAfter(g: Registry, l: Label, p: Peer, name: Name) {
    match l
    case Establish(q, names, derived) => Allowed(g, p, name) || (q == p && derived && name in names)
    case CloseStreams(q) => Allowed(g, p, name) && q != p
    case Shutdown => false
    case _ => Allowed(g, p, name)
  }

  /** and whether it has a key. */
  predicate KeyAfter(g: Registry, l: Label, p: Peer) {
    match l
    case Establish(q, names, derived) => p in g.keys || (q == p && derived && names != {})
    case CloseStreams(q) => p in g.keys && q != p
    case Shutdown => false
    case _ => p in g.keys
  }

  /** The names and the key of a peer: EstablishStreams adds names and the key, CloseStreams of
      that peer and Shutdown drop both, and nothing else touches them. */
  lemma NamesExactly(g: Registry, l: Label, p: Peer)
    requires Ok(g)
    ensures forall name :: Allowed(Next(g, l), p, name) <==> AllowedAfter(g, l, p, name)
    ensures p in Next(g, l).keys <==> KeyAfter(g, l, p)
  {}

  predicate SameEntry(g: Registry, n: Registry, slot: Slot) {
    (slot in n.streams <==> slot in g.streams) && (slot in g.streams ==> n.streams[slot] == g.streams[slot])
  }

  predicate HasEntry(n: Registry, slot: Slot, id: nat) { slot in n.streams && n.streams[slot] == id }

  /** The entry of a slot: an open that finds it taken leaves it, one that does not puts its own
      stream there; a stream the peer opens goes there if it is allowed and the slot is not
      taken; a close empties it. */
  predicate EntryAfter(g: Registry, l: Label, n: Registry, slot: Slot) {
    match l
    case Store(t) =>
      if OpenOf(g, t).Holding? && OpenOf(g, t).slot == slot && !Live(g, slot)
      then HasEntry(n, slot, OpenOf(g, t).id) else SameEntry(g, n, slot)
    case Incoming(p, name) =>
      if slot == Slot(Encrypted, p, name) && Allowed(g, p, name) && !Live(g, slot)
      then HasEntry(n, slot, |g.objs|) else SameEntry(g, n, slot)
    case IncomingHandshake(p) =>
      if slot == Slot(Plain, p, HANDSHAKE) && !Live(g, slot)
      then HasEntry(n, slot, |g.objs|) else SameEntry(g, n, slot)
    case CloseHandshake(p) =>
      if slot == Slot(Plain, p, HANDSHAKE) then slot !in n.streams else SameEntry(g, n, slot)
    case CloseStreams(p) => if slot.peer == p then slot !in n.streams else SameEntry(g, n, slot)
    case Shutdown => slot !in n.streams
    case _ => SameEntry(g, n, slot)
  }

  lemma EntryExactly(g: Registry, l: Label, slot: Slot)
    requires Ok(g)
    ensures EntryAfter(g, l, Next(g, l), slot)
  {
    match l
    case CloseStreams(p) => assert slot in Without(g.streams, p) <==> slot in g.streams && slot.peer != p;
    case _ =>
  }

  /** What closes a stream: its reader, a close that finds it registered, or the open that
      created it and lost the race. */
  predicate Closes(g: Registry, l: Label, id: nat)
    requires id < |g.objs|
  {
    match l
    case ReaderEnds(i) => i == id
    case Store(t) => OpenOf(g, t).Holding? && OpenOf(g, t).id == id && Live(g, OpenOf(g, t).slot)
    case CloseHandshake(p) => Registered(g, id) && g.objs[id].slot == Slot(Plain, p, HANDSHAKE)
    case CloseStreams(p) => Registered(g, id) && g.objs[id].slot.peer == p
    case Shutdown => Registered(g, id)
    case _ => false
  }

  lemma ClosedExactly(g: Registry, l: Label, id: nat)
    requires Ok(g) && id < |g.objs|
    ensures var n := Next(g, l);
      && id < |n.objs| && n.objs[id].slot == g.objs[id].slot && n.objs[id].origin == g.objs[id].origin
      && (n.objs[id].closed <==> g.objs[id].closed || Closes(g, l, id))
  {
    var slot := g.objs[id].slot;
    if slot in g.streams { assert EntryOk(g, slot); }
    match l
    case CloseHandshake(p) =>
      var handshake := Slot(Plain, p, HANDSHAKE);
      if handshake in g.streams { assert EntryOk(g, handshake); }
    case CloseStreams(p) => RegisteredUnder(g, p, id);
    case Shutdown => RegisteredAnywhere(g, id);
    case _ =>
  }

  lemma RegisteredUnder(g: Registry, p: Peer, id: nat)
    requires Ok(g) && id < |g.objs|
    ensures id in Of(g.streams, p).Values <==> Registered(g, id) && g.objs[id].slot.peer == p
  {
    if id in Of(g.streams, p).Values {
      var s :| s in Of(g.streams, p) && Of(g.streams, p)[s] == id;
      assert EntryOk(g, s);
    }
    if Registered(g, id) && g.objs[id].slot.peer == p { assert Of(g.streams, p)[g.objs[id].slot] == id; }
  }

  lemma RegisteredAnywhere(g: Registry, id: nat)
    requires Ok(g) && id < |g.objs|
    ensures id in g.streams.Values <==> Registered(g, id)
  {
    if id in g.streams.Values {
      var s :| s in g.streams && g.streams[s] == id;
      assert EntryOk(g, s);
    }
  }

  // ---- Only agreed names ----

  /** In the run, open `t` was checked for `slot` at a moment at which its name was allowed. */
  predicate CheckedAllowed(g: Registry, run: seq<Label>, t: nat, slot: Slot)
    decreases |run|
  {
    |run| > 0 &&
    var n, l := Exec(Next, g, run[..|run| - 1]), run[|run| - 1];
    CheckedAllowed(g, run[..|run| - 1], t, slot) || (l == Check(t, slot) && Allowed(n, slot.peer, slot.name))
  }

  /** In the run, the peer of `slot` opened it at a moment at which its name was allowed. */
  predicate LetInAllowed(g: Registry, run: seq<Label>, slot: Slot)
    decreases |run|
  {
    |run| > 0 &&
    var n, l := Exec(Next, g, run[..|run| - 1]), run[|run| - 1];
    LetInAllowed(g, run[..|run| - 1], slot)
    || (l == Incoming(slot.peer, slot.name) && Allowed(n, slot.peer, slot.name))
  }

  /** In every run the name of an encrypted stream was in its peer's allowed set when its open
      was checked, if this node opened it, and when it came in, if the peer did; and so is that
      of every encrypted stream being dialled. */
  lemma {:induction false} OnlyAgreedNames(run: seq<Label>, id: nat, t: nat)
    ensures var g := Exec(Next, New(), run);
      && (id < |g.objs| && g.objs[id].slot.kind.Encrypted? ==>
            match g.objs[id].origin
            case Opener(u) => CheckedAllowed(New(), run, u, g.objs[id].slot)
            case Remote => LetInAllowed(New(), run, g.objs[id].slot))
      && (OpenOf(g, t).Dialing? && OpenOf(g, t).slot.kind.Encrypted? ==>
            CheckedAllowed(New(), run, t, OpenOf(g, t).slot))
    decreases |run|
  {
    if |run| > 0 {
      var init, l := run[..|run| - 1], run[|run| - 1];
      var g := Exec(Next, New(), init);
      RunOk(init);
      OnlyAgreedNames(init, id, t);
      if l.Dial? { OnlyAgreedNames(init, id, l.t); }
      if l.Check? && OpenOf(g, l.t).Idle? { CheckExactly(g, l.t, l.slot); }
      if id < |Next(g, l).objs| { OriginExactly(g, l, id); }
    }
  }

  /** Where a new stream comes from. */
  lemma OriginExactly(g: Registry, l: Label, id: nat)
    requires Ok(g) && id < |Next(g, l).objs|
    ensures var o := Next(g, l).objs[id];
      if id < |g.objs| then o.slot == g.objs[id].slot && o.origin == g.objs[id].origin
      else match o.origin
           case Opener(u) => l == Dial(u, true) && OpenOf(g, u) == Dialing(o.slot)
           case Remote =>
             o.slot.kind.Encrypted? ==> l == Incoming(o.slot.peer, o.slot.name) && Allowed(g, o.slot.peer, o.slot.name)
  {}
}
