/** The connection manager (pkg/connection/manager.go, peer.go) as a state machine over its
    lock-held sections.

    PeerConnection and ReconnectState objects live in stores and a reference is an index,
    so a section that kept an object across an unlock (ConnectCtx, DisconnectCtx) names it
    even when the maps no longer do. A label may occur at any moment, which covers every
    interleaving of the goroutines that contain the sections. */
module Connections {
  import opened Runs
  import opened States
  import Backoff

  type Peer = string

  datatype Conn = Conn(peer: Peer, state: ConnState, outbound: bool, timer: bool, hist: seq<ConnState>)

  /** Where a reconnection loop stands. */
  datatype Pc = Created | Checking | Waiting | Woken | Dialing | Succeeded | Exited

  datatype Rec = Rec(peer: Peer, cancelled: bool, attempts: nat, pc: Pc)

  datatype Event = Event(peer: Peer, state: ConnState)

  datatype Table = Table(connections: map<Peer, nat>, conns: seq<Conn>)

  datatype Loops = Loops(maxAttempts: int, reconnecting: map<Peer, nat>, recs: seq<Rec>, ctxDone: bool)

  /** `pending` are the events that a goroutine has still to emit after its section. */
  datatype Mgr = Mgr(table: Table, loops: Loops, pending: multiset<Event>, events: seq<Event>)

  datatype Label =
    | ConnectBegin(p: Peer, blacklisted: bool, known: bool, cooling: bool)
    | ConnectDone(i: nat)
    | ConnectFailed(p: Peer)
    | DisconnectBegin(p: Peer)
    | Cleanup(i: nat)              // also CancelHandshakeTimeout: disarms the timer
    | DisconnectEnd(i: nat)
    | CancelReconnection(p: Peer)
    | TimeoutFires(p: Peer)
    | CooldownEnds(p: Peer)
    | StartReconnection(p: Peer, blacklisted: bool)
    | OnDisconnect(p: Peer)
    | MarkEstablished(p: Peer)
    | RegisterIncoming(p: Peer)
    | GetOrCreate(p: Peer)
    | CancelContext
    | Shutdown
    | LoopStep(r: nat, choice: bool)  // choice: timer fired, peer blacklisted, dial succeeded
    | Emit(e: Event)

  function New(maxAttempts: int): Mgr { Mgr(Table(map[], []), Loops(maxAttempts, map[], [], false), multiset{}, []) }

  // ---- What a section does to the connection table ----

  datatype ConnEffect = Keep | Set(i: nat, c: Conn) | Create(p: Peer, c: Conn) | ForgetAll

  function NewConn(p: Peer): Conn { Conn(p, Disconnected, false, false, [Disconnected]) }

  /** PeerConnection.TransitionTo, its error ignored. */
  function Transition(c: Conn, s: ConnState): Conn {
    if CanTransition(c.state, s) then c.(state := s, hist := c.hist + [s]) else c
  }

  function Lookup(t: Table, p: Peer): Conn {
    if p in t.connections && t.connections[p] < |t.conns| then t.conns[t.connections[p]] else NewConn(p)
  }

  /** Manager.GetState. */
  function Observed(m: Mgr, p: Peer): ConnState { Lookup(m.table, p).state }

  function SetAt(t: Table, i: nat, c: Conn): ConnEffect { if i < |t.conns| then Set(i, c) else Keep }

  function IfKnown(t: Table, p: Peer, c: Conn): ConnEffect {
    if p in t.connections then SetAt(t, t.connections[p], c) else Keep
  }

  function GetOrMake(t: Table, p: Peer, c: Conn): ConnEffect {
    if p in t.connections then SetAt(t, t.connections[p], c) else Create(p, c)
  }

  predicate ConnectRefused(t: Table, l: Label)
    requires l.ConnectBegin?
  {
    var s := Lookup(t, l.p).state;
    l.blacklisted || IsActive(s) || (s == Cooldown && l.cooling) || !l.known
  }

  function Incoming(c: Conn): Conn {
    var d := c.(outbound := false);
    if d.state == Disconnected then Transition(Transition(d, Connecting), Connected).(timer := true) else d
  }

  function ConnEffectOf(m: Mgr, l: Label): ConnEffect {
    var t := m.table;
    match l
    case ConnectBegin(p, _, _, _) =>
      if ConnectRefused(t, l) then Keep
      else GetOrMake(t, p, Transition(Lookup(t, p).(outbound := true), Connecting))
    case ConnectDone(i) =>
      if i < |t.conns| && CanTransition(t.conns[i].state, Connected)
      then Set(i, Transition(t.conns[i], Connected).(timer := true)) else Keep
    case ConnectFailed(p) => IfKnown(t, p, Transition(Lookup(t, p), Disconnected))
    case DisconnectBegin(_) => Keep
    case Cleanup(i) => if i < |t.conns| then Set(i, t.conns[i].(timer := false)) else Keep
    case DisconnectEnd(i) => if i < |t.conns| then Set(i, Transition(t.conns[i], Disconnected)) else Keep
    case CancelReconnection(p) =>
      if p in m.loops.reconnecting then IfKnown(t, p, Transition(Lookup(t, p), Disconnected)) else Keep
    case TimeoutFires(p) =>
      if Lookup(t, p).state == Connected then IfKnown(t, p, Transition(Lookup(t, p), Cooldown)) else Keep
    case CooldownEnds(p) =>
      if Lookup(t, p).state == Cooldown then IfKnown(t, p, Transition(Lookup(t, p), Disconnected)) else Keep
    case StartReconnection(p, blacklisted) =>
      if Starts(m, p, blacklisted) then IfKnown(t, p, Transition(Lookup(t, p), Reconnecting)) else Keep
    case OnDisconnect(p) => IfKnown(t, p, Transition(Lookup(t, p).(timer := false), Disconnected))
    case MarkEstablished(p) => IfKnown(t, p, Transition(Lookup(t, p).(timer := false), Established))
    case RegisterIncoming(p) => GetOrMake(t, p, Incoming(Lookup(t, p)))
    case GetOrCreate(p) => GetOrMake(t, p, Lookup(t, p))
    case CancelContext => Keep
    case Shutdown => if m.loops.ctxDone then ForgetAll else Keep
    case LoopStep(r, choice) =>
      if r >= |m.loops.recs| then Keep else
      var p := m.loops.recs[r].peer;
      if GivesUp(m.loops, r, choice) then IfKnown(t, p, Transition(Lookup(t, p), Disconnected))
      else if m.loops.recs[r].pc.Dialing? && choice
      then IfKnown(t, p, Transition(Lookup(t, p), Connected).(timer := true))
      else Keep
    case Emit(_) => Keep
  }

  function ApplyConn(t: Table, e: ConnEffect): Table {
    match e
    case Keep => t
    case Set(i, c) => if i < |t.conns| then t.(conns := t.conns[i := c]) else t
    case Create(p, c) => Table(t.connections[p := |t.conns|], t.conns + [c])
    case ForgetAll => Table(map[], seq(|t.conns|, i requires 0 <= i < |t.conns| =>
      if i in t.connections.Values then t.conns[i].(timer := false) else t.conns[i]))
  }

  // ---- What a section does to the reconnection records ----

  datatype RecEffect =
    | KeepRecs
    | Advance(r: nat, rec: Rec)        // a loop moves
    | Leave(r: nat)                    // a loop deletes its peer's entry and exits
    | CancelEntry(p: Peer)             // cancel the record and delete the entry, in one section
    | Start(p: Peer)
    | DoneAll                          // the manager's context is cancelled
    | ForgetRecs

  predicate Starts(m: Mgr, p: Peer, blacklisted: bool) {
    !blacklisted && p !in m.loops.reconnecting && p in m.table.connections
  }

  /** The loop finds its attempts exhausted, or its peer blacklisted. */
  predicate GivesUp(k: Loops, r: nat, choice: bool)
    requires r < |k.recs|
  {
    || (k.recs[r].pc.Checking? && !Backoff.ShouldRetry(k.recs[r].attempts, k.maxAttempts))
    || (k.recs[r].pc.Woken? && choice)
  }

  function LoopEffect(k: Loops, r: nat, choice: bool): RecEffect
    requires r < |k.recs|
  {
    var rec := k.recs[r];
    if GivesUp(k, r, choice) then Leave(r) else
    match rec.pc
    case Created => Advance(r, rec.(pc := Checking))
    case Checking => Advance(r, rec.(attempts := rec.attempts + 1, pc := Waiting))
    case Waiting =>
      Advance(r, rec.(pc := if (rec.cancelled || k.ctxDone) && !choice then Exited else Woken))
    case Woken => Advance(r, rec.(pc := Dialing))
    case Dialing => Advance(r, rec.(pc := if choice then Succeeded else Checking))
    case Succeeded => Leave(r)
    case Exited => KeepRecs
  }

  function RecEffectOf(m: Mgr, l: Label): RecEffect {
    match l
    case DisconnectBegin(p) => if p in m.table.connections then CancelEntry(p) else KeepRecs
    case CancelReconnection(p) => CancelEntry(p)
    case StartReconnection(p, blacklisted) => if Starts(m, p, blacklisted) then Start(p) else KeepRecs
    case CancelContext => DoneAll
    case Shutdown => if m.loops.ctxDone then ForgetRecs else KeepRecs
    case LoopStep(r, choice) => if r < |m.loops.recs| then LoopEffect(m.loops, r, choice) else KeepRecs
    case _ => KeepRecs
  }

  function CancelAt(k: Loops, r: nat): Loops {
    if r < |k.recs| then k.(recs := k.recs[r := k.recs[r].(cancelled := true)]) else k
  }

  function ApplyRec(k: Loops, e: RecEffect): Loops {
    match e
    case KeepRecs => k
    case Advance(r, rec) => if r < |k.recs| then k.(recs := k.recs[r := rec]) else k
    case Leave(r) =>
      if r < |k.recs|
      then k.(recs := k.recs[r := k.recs[r].(pc := Exited)], reconnecting := k.reconnecting - {k.recs[r].peer})
      else k
    case CancelEntry(p) =>
      if p in k.reconnecting
      then CancelAt(k, k.reconnecting[p]).(reconnecting := k.reconnecting - {p}) else k
    case Start(p) => k.(reconnecting := k.reconnecting[p := |k.recs|], recs := k.recs + [Rec(p, false, 0, Created)])
    case DoneAll => k.(ctxDone := true)
    case ForgetRecs => k.(reconnecting := map[], recs := seq(|k.recs|, i requires 0 <= i < |k.recs| =>
      if i in k.reconnecting.Values then k.recs[i].(cancelled := true) else k.recs[i]))
  }

  // ---- The machine ----

  /** The event a section has to emit once it has unlocked. */
  function OwedBy(m: Mgr, l: Label): seq<Event> {
    var t := m.table;
    match l
    case ConnectBegin(p, _, _, _) =>
      if !ConnectRefused(t, l) && CanTransition(Lookup(t, p).state, Connecting) then [Event(p, Connecting)] else []
    case ConnectDone(i) =>
      if i < |t.conns| && CanTransition(t.conns[i].state, Connected) then [Event(t.conns[i].peer, Connected)] else []
    case ConnectFailed(p) => [Event(p, Disconnected)]
    case DisconnectEnd(i) => if i < |t.conns| then [Event(t.conns[i].peer, Disconnected)] else []
    case TimeoutFires(p) => if Lookup(t, p).state == Connected then [Event(p, Cooldown)] else []
    case CooldownEnds(p) => if Lookup(t, p).state == Cooldown then [Event(p, Disconnected)] else []
    case StartReconnection(p, blacklisted) => if Starts(m, p, blacklisted) then [Event(p, Reconnecting)] else []
    case OnDisconnect(p) => if p in t.connections then [Event(p, Disconnected)] else []
    case MarkEstablished(p) =>
      if p in t.connections && CanTransition(Lookup(t, p).state, Established) then [Event(p, Established)] else []
    case RegisterIncoming(p) => if Lookup(t, p).state == Disconnected then [Event(p, Connected)] else []
    case LoopStep(r, choice) =>
      if r >= |m.loops.recs| then []
      else if GivesUp(m.loops, r, choice) then [Event(m.loops.recs[r].peer, Disconnected)]
      else if m.loops.recs[r].pc.Dialing? && choice then [Event(m.loops.recs[r].peer, Connected)]
      else []
    case _ => []
  }

  function Next(m: Mgr, l: Label): Mgr {
    Mgr(ApplyConn(m.table, ConnEffectOf(m, l)), ApplyRec(m.loops, RecEffectOf(m, l)),
        if Emits(m, l) then m.pending - multiset{l.e} else m.pending + multiset(OwedBy(m, l)),
        if Emits(m, l) then m.events + [l.e] else m.events)
  }

  predicate Emits(m: Mgr, l: Label) { l.Emit? && l.e in m.pending }

  // ---- State histories ----

  ghost predicate ConnOk(c: Conn) { Walk(c.hist) && c.hist[|c.hist| - 1] == c.state }

  /** Map entries point to objects of their own peer. */
  predicate InTable(t: Table) {
    forall p :: p in t.connections ==> t.connections[p] < |t.conns| && t.conns[t.connections[p]].peer == p
  }

  ghost predicate TableOk(t: Table) {
    && InTable(t)
    && (forall i :: 0 <= i < |t.conns| ==> ConnOk(t.conns[i]))
  }

  ghost predicate Ok(m: Mgr) { TableOk(m.table) }

  /** The two ways a section may change a connection: one edge of the table at most, or the
      two edges of an incoming connection. */
  ghost predicate OneMove(c: Conn, d: Conn) {
    d.peer == c.peer &&
    ((d.state == c.state && d.hist == c.hist) ||
     (CanTransition(c.state, d.state) && d.hist == c.hist + [d.state]))
  }

  ghost predicate TwoMoves(c: Conn, d: Conn) {
    d.peer == c.peer && c.state == Disconnected && d.state == Connected && d.hist == c.hist + [Connecting, Connected]
  }

  ghost predicate Good(t: Table, e: ConnEffect) {
    match e
    case Set(i, c) => i < |t.conns| && (OneMove(t.conns[i], c) || TwoMoves(t.conns[i], c))
    case Create(p, c) => p !in t.connections && (OneMove(NewConn(p), c) || TwoMoves(NewConn(p), c))
    case _ => true
  }

  /** The effect moves one existing object along at most one edge. */
  ghost predicate Simple(t: Table, e: ConnEffect) {
    e.Keep? || e.ForgetAll? || (e.Set? && e.i < |t.conns| && OneMove(t.conns[e.i], e.c))
  }

  lemma KnownMoves(t: Table, p: Peer, s: ConnState, timer: bool)
    requires TableOk(t)
    ensures Simple(t, IfKnown(t, p, Transition(Lookup(t, p), s)))
    ensures Simple(t, IfKnown(t, p, Transition(Lookup(t, p).(timer := timer), s)))
    ensures Simple(t, IfKnown(t, p, Transition(Lookup(t, p), s).(timer := timer)))
  {}

  predicate Makes(l: Label) { l.ConnectBegin? || l.RegisterIncoming? || l.GetOrCreate? }

  lemma MostAreSimple(m: Mgr, l: Label)
    requires Ok(m) && !Makes(l)
    ensures Simple(m.table, ConnEffectOf(m, l))
  {
    match l
    case ConnectFailed(p) => KnownMoves(m.table, p, Disconnected, false);
    case CancelReconnection(p) => KnownMoves(m.table, p, Disconnected, false);
    case TimeoutFires(p) => KnownMoves(m.table, p, Cooldown, false);
    case CooldownEnds(p) => KnownMoves(m.table, p, Disconnected, false);
    case StartReconnection(p, _) => KnownMoves(m.table, p, Reconnecting, false);
    case OnDisconnect(p) => KnownMoves(m.table, p, Disconnected, false);
    case MarkEstablished(p) => KnownMoves(m.table, p, Established, false);
    case LoopStep(r, _) =>
      if r < |m.loops.recs| {
        KnownMoves(m.table, m.loops.recs[r].peer, Disconnected, false);
        KnownMoves(m.table, m.loops.recs[r].peer, Connected, true);
      }
    case _ =>
  }

  lemma EffectsAreGood(m: Mgr, l: Label)
    requires Ok(m)
    ensures Good(m.table, ConnEffectOf(m, l))
    ensures var e := ConnEffectOf(m, l);
      && (e.Set? ==> var c := m.table.conns[e.i];
            OneMove(c, e.c) || (l == RegisterIncoming(c.peer) && TwoMoves(c, e.c)))
      && (e.Create? ==> OneMove(NewConn(e.p), e.c) || l == RegisterIncoming(e.p))
  {
    if !Makes(l) { MostAreSimple(m, l); }
  }

  lemma MovesKeepOk(c: Conn, d: Conn)
    requires ConnOk(c) && (OneMove(c, d) || TwoMoves(c, d))
    ensures ConnOk(d)
  {
    assert forall i :: 0 <= i < |c.hist| ==> d.hist[i] == c.hist[i];
    assert CanTransition(Disconnected, Connecting) && CanTransition(Connecting, Connected);
  }

  lemma ApplyKeepsOk(t: Table, e: ConnEffect)
    requires TableOk(t) && Good(t, e)
    ensures TableOk(ApplyConn(t, e))
  {
    match e
    case Set(i, c) => MovesKeepOk(t.conns[i], c);
    case Create(p, c) => MovesKeepOk(NewConn(p), c);
    case _ =>
  }

  lemma StepOk(m: Mgr, l: Label)
    requires Ok(m)
    ensures Ok(Next(m, l))
  {
    EffectsAreGood(m, l);
    ApplyKeepsOk(m.table, ConnEffectOf(m, l));
  }

  lemma RunOk(m: Mgr, run: seq<Label>)
    requires Ok(m)
    ensures Ok(Exec(Next, m, run))
  {
    forall n, l | Ok(n) ensures Ok(Next(n, l)) { StepOk(n, l); }
    Invariant(Next, Ok, m, run);
  }

  /** Histories are table walks, for every connection object ever created and in every run,
      Shutdown and sections that hold a forgotten object included. */
  lemma HistoriesAreWalks(maxAttempts: int, run: seq<Label>, c: nat, i: nat)
    ensures var m := Exec(Next, New(maxAttempts), run);
      c < |m.table.conns| ==>
        var h := m.table.conns[c].hist;
        && Walk(h) && h[|h| - 1] == m.table.conns[c].state
        && (0 < i < |h| && (h[i] == Established || h[i] == Cooldown) ==> h[i - 1] == Connected)
        && (0 < i < |h| && h[i] == Connected ==> h[i - 1] == Connecting)
        && Count(h, Established) + Count(h, Cooldown) + Falls(h) <= Count(h, Connected)
  {
    RunOk(New(maxAttempts), run);
    var m := Exec(Next, New(maxAttempts), run);
    if c < |m.table.conns| {
      assert ConnOk(m.table.conns[c]);
      var h := m.table.conns[c].hist;
      EachEntryLeavesOnce(h);
      if 0 < i < |h| { TableFacts(h, i, Connected); }
    }
  }

  /** What GetState shows for a peer moves along at most one table edge in a section, except
      that an incoming connection passes through Connecting inside its section. */
  lemma ObservedFollowsTable(m: Mgr, l: Label, p: Peer)
    requires Ok(m)
    ensures var s, t := Observed(m, p), Observed(Next(m, l), p);
      || s == t || CanTransition(s, t)
      || (l == RegisterIncoming(p) && s == Disconnected && t == Connected)
  {
    EffectsAreGood(m, l);
    assert Next(m, l).table == ApplyConn(m.table, ConnEffectOf(m, l));
    if l.Shutdown? { TableFacts([Disconnected, Connecting], 1, Observed(m, p)); }
  }

  /** Every move to Disconnected whose error is ignored ends in Disconnected. */
  lemma IgnoredErrorsAreHarmless(m: Mgr, l: Label)
    requires Ok(m)
    ensures l.ConnectFailed? || l.OnDisconnect? || (l.CancelReconnection? && l.p in m.loops.reconnecting)
            || (l.CooldownEnds? && Observed(m, l.p) == Cooldown)
            ==> Observed(Next(m, l), l.p) == Disconnected
    ensures l.DisconnectEnd? && l.i < |m.table.conns| ==> Next(m, l).table.conns[l.i].state == Disconnected
  {
    var t := m.table;
    match l
    case ConnectFailed(p) => DropDisconnects(t, p, Lookup(t, p));
    case OnDisconnect(p) => DropDisconnects(t, p, Lookup(t, p).(timer := false));
    case CancelReconnection(p) => DropDisconnects(t, p, Lookup(t, p));
    case CooldownEnds(p) => DropDisconnects(t, p, Lookup(t, p));
    case _ =>
  }

  /** So does the move of a loop that gives up. */
  lemma GivingUpDisconnects(m: Mgr, r: nat, choice: bool)
    requires Ok(m) && r < |m.loops.recs| && GivesUp(m.loops, r, choice)
    ensures Observed(Next(m, LoopStep(r, choice)), m.loops.recs[r].peer) == Disconnected
    ensures m.loops.recs[r].peer !in Next(m, LoopStep(r, choice)).loops.reconnecting
  {
    DropDisconnects(m.table, m.loops.recs[r].peer, Lookup(m.table, m.loops.recs[r].peer));
  }

  lemma DropDisconnects(t: Table, p: Peer, c: Conn)
    requires TableOk(t)
    ensures Lookup(ApplyConn(t, IfKnown(t, p, Transition(c, Disconnected))), p).state == Disconnected
  {
    assert Moved(c.state, Disconnected) == Disconnected;
  }

  /** A change of a connection by label `l` handles the timer and the direction as it should. */
  predicate TimerOk(c: Conn, d: Conn, l: Label) {
    && (d.state == Connected && c.state != Connected ==> d.timer)
    && (d.state == Established && c.state != Established ==> !d.timer)
    && (d.outbound != c.outbound ==> if d.outbound then l.ConnectBegin? else l.RegisterIncoming?)
    && (l.RegisterIncoming? ==> !d.outbound)
    && (d.state == Connecting && c.state != Connecting ==> d.outbound)
  }

  ghost predicate TimerEffect(t: Table, e: ConnEffect, l: Label) {
    match e
    case Set(i, c) => i < |t.conns| && TimerOk(t.conns[i], c, l)
    case Create(p, c) => TimerOk(NewConn(p), c, l)
    case _ => true
  }

  /** Moves that concern neither the timer nor the direction. */
  lemma OtherMoves(t: Table, p: Peer, s: ConnState, l: Label)
    requires TableOk(t) && s != Connected && s != Established && s != Connecting && !l.RegisterIncoming?
    ensures TimerEffect(t, IfKnown(t, p, Transition(Lookup(t, p), s)), l)
    ensures TimerEffect(t, IfKnown(t, p, Transition(Lookup(t, p).(timer := false), s)), l)
  {}

  lemma LoopTimer(m: Mgr, l: Label)
    requires Ok(m) && l.LoopStep? && l.r < |m.loops.recs|
    ensures TimerEffect(m.table, ConnEffectOf(m, l), l)
  {
    OtherMoves(m.table, m.loops.recs[l.r].peer, Disconnected, l);
  }

  lemma EffectTimer(m: Mgr, l: Label)
    requires Ok(m)
    ensures TimerEffect(m.table, ConnEffectOf(m, l), l)
  {
    match l
    case ConnectFailed(p) => OtherMoves(m.table, p, Disconnected, l);
    case CancelReconnection(p) => OtherMoves(m.table, p, Disconnected, l);
    case TimeoutFires(p) => OtherMoves(m.table, p, Cooldown, l);
    case CooldownEnds(p) => OtherMoves(m.table, p, Disconnected, l);
    case StartReconnection(p, _) => OtherMoves(m.table, p, Reconnecting, l);
    case OnDisconnect(p) => OtherMoves(m.table, p, Disconnected, l);
    case LoopStep(r, _) => if r < |m.loops.recs| { LoopTimer(m, l); }
    case _ =>
  }

  /** Whatever section brings a peer into Connected arms its handshake timer, and the one
      that establishes it disarms it; the direction changes only when a connection is opened
      or registered, and is then that of the call. */
  lemma TimerFollowsState(m: Mgr, l: Label, p: Peer)
    requires Ok(m) && !l.Shutdown?
    ensures var c, d := Lookup(m.table, p), Lookup(Next(m, l).table, p);
      d == c || TimerOk(c, d, l)
  {
    EffectTimer(m, l);
    EffectsAreGood(m, l);
    TimerAfter(m.table, ConnEffectOf(m, l), l, p);
  }

  lemma TimerAfter(t: Table, e: ConnEffect, l: Label, p: Peer)
    requires TableOk(t) && Good(t, e) && TimerEffect(t, e, l) && !e.ForgetAll?
    ensures var c, d := Lookup(t, p), Lookup(ApplyConn(t, e), p); d == c || TimerOk(c, d, l)
  {}

  // ---- Handshake timeout against completion ----

  predicate Competing(l: Label, p: Peer) { l == MarkEstablished(p) || l == TimeoutFires(p) }

  /** A competing call moves the peer exactly from Connected, and owes the event that says so. */
  lemma OnlyConnectedMoves(m: Mgr, p: Peer, l: Label)
    requires Ok(m) && Competing(l, p)
    ensures var n := Next(m, l); var won := if l.MarkEstablished? then Established else Cooldown;
      && Ok(n) && n.loops == m.loops && n.events == m.events
      && (if Observed(m, p) == Connected
          then Observed(n, p) == won && Lookup(n.table, p).hist == Lookup(m.table, p).hist + [won]
               && n.pending == m.pending + multiset{Event(p, won)}
          else Observed(n, p) == Observed(m, p) && Lookup(n.table, p).hist == Lookup(m.table, p).hist
               && n.pending == m.pending)
  {
    StepOk(m, l);
    CompetingMove(m, p, l);
    var won := if l.MarkEstablished? then Established else Cooldown;
    assert OwedBy(m, l) == if Observed(m, p) != Connected then [] else [Event(p, won)];
  }

  lemma CompetingMove(m: Mgr, p: Peer, l: Label)
    requires Ok(m) && Competing(l, p)
    ensures var c, d := Lookup(m.table, p), Lookup(ApplyConn(m.table, ConnEffectOf(m, l)), p);
      var won := if l.MarkEstablished? then Established else Cooldown;
      if c.state == Connected then d.state == won && d.hist == c.hist + [won]
      else d.state == c.state && d.hist == c.hist
  {
    var c := if l.MarkEstablished? then Lookup(m.table, p).(timer := false) else Lookup(m.table, p);
    var won := if l.MarkEstablished? then Established else Cooldown;
    if p in m.table.connections && (l.MarkEstablished? || Observed(m, p) == Connected) {
      assert ConnEffectOf(m, l) == Set(m.table.connections[p], Transition(c, won));
      assert Lookup(ApplyConn(m.table, ConnEffectOf(m, l)), p) == Transition(c, won);
    } else {
      assert ConnEffectOf(m, l) == Keep;
    }
  }

  function Weight(c: Conn, p: Peer, s: ConnState): nat { if c.peer == p then Count(c.hist, s) else 0 }

  /** How often a connection object of peer `p` entered state `s`. */
  function Entries(conns: seq<Conn>, p: Peer, s: ConnState): nat
    decreases |conns|
  {
    if |conns| == 0 then 0
    else Entries(conns[..|conns| - 1], p, s) + Weight(conns[|conns| - 1], p, s)
  }

  function Emitted(m: Mgr, p: Peer, s: ConnState): nat { multiset(m.events)[Event(p, s)] }

  /** Emitted, or still to be emitted. */
  function Announced(m: Mgr, p: Peer, s: ConnState): nat { Emitted(m, p, s) + m.pending[Event(p, s)] }

  /** Emitting changes nothing but the place of the event. */
  lemma EmittingKeeps(m: Mgr, e: Event)
    ensures var n := Next(m, Emit(e));
      && n.table == m.table && n.loops == m.loops
      && multiset(n.events) + n.pending == multiset(m.events) + m.pending
  {}

  lemma {:induction false} EntriesAfterSet(conns: seq<Conn>, i: nat, c: Conn, p: Peer, s: ConnState)
    requires i < |conns|
    ensures Entries(conns[i := c], p, s) == Entries(conns, p, s) - Weight(conns[i], p, s) + Weight(c, p, s)
    decreases |conns|
  {
    var upd := conns[i := c];
    if i == |conns| - 1 {
      assert upd[..|upd| - 1] == conns[..|conns| - 1];
    } else {
      assert upd[..|upd| - 1] == conns[..|conns| - 1][i := c];
      EntriesAfterSet(conns[..|conns| - 1], i, c, p, s);
    }
  }

  lemma {:induction false} SameHistories(a: seq<Conn>, b: seq<Conn>, p: Peer, s: ConnState)
    requires |a| == |b| && forall i :: 0 <= i < |a| ==> a[i].peer == b[i].peer && a[i].hist == b[i].hist
    ensures Entries(a, p, s) == Entries(b, p, s)
    decreases |a|
  {
    if |a| > 0 { SameHistories(a[..|a| - 1], b[..|b| - 1], p, s); }
  }

  /** A section enters Established or Cooldown exactly when it emits the event that says so. */
  lemma EffectMatchesEvent(m: Mgr, l: Label, s: ConnState)
    requires Ok(m) && (s == Established || s == Cooldown)
    ensures var e := ConnEffectOf(m, l);
      if e.Set? && e.c.hist != m.table.conns[e.i].hist && e.c.state == s
      then OwedBy(m, l) == [Event(m.table.conns[e.i].peer, s)]
      else !(e.Create? && e.c.hist != [Disconnected] && e.c.state == s)
           && forall ev :: ev in OwedBy(m, l) ==> ev.state != s
  {
    EffectsAreGood(m, l);
    if !l.TimeoutFires? && !l.MarkEstablished? {
      NoOutcomeEvent(m, l, s);
      NoOutcome(m, l, s);
    }
  }

  lemma NoOutcomeEvent(m: Mgr, l: Label, s: ConnState)
    requires (s == Established || s == Cooldown) && !l.TimeoutFires? && !l.MarkEstablished?
    ensures forall ev :: ev in OwedBy(m, l) ==> ev.state != s
  {}

  lemma NoOutcome(m: Mgr, l: Label, s: ConnState)
    requires Ok(m) && (s == Established || s == Cooldown) && !l.TimeoutFires? && !l.MarkEstablished?
    ensures var e := ConnEffectOf(m, l);
      && (e.Set? ==> e.i < |m.table.conns| && (e.c.state == s ==> e.c.hist == m.table.conns[e.i].hist))
      && (e.Create? ==> e.c.state != s)
  {
    if l.LoopStep? { LoopNoOutcome(m, l, s); }
  }

  lemma LoopNoOutcome(m: Mgr, l: Label, s: ConnState)
    requires Ok(m) && (s == Established || s == Cooldown) && l.LoopStep?
    ensures var e := ConnEffectOf(m, l);
      && !e.Create?
      && (e.Set? ==> e.i < |m.table.conns| && (e.c.state == s ==> e.c.hist == m.table.conns[e.i].hist))
  {}

  /** A section announces an outcome exactly as often as it enters it; emitting announces
      nothing new. */
  lemma StepTellsTheTruth(m: Mgr, l: Label, p: Peer, s: ConnState)
    requires Ok(m) && (s == Established || s == Cooldown)
    ensures Entries(Next(m, l).table.conns, p, s) - Entries(m.table.conns, p, s)
            == Announced(Next(m, l), p, s) - Announced(m, p, s)
  {
    if l.Emit? {
      EmittingKeeps(m, l.e);
    } else {
      EffectsAreGood(m, l);
      EffectMatchesEvent(m, l, s);
      EntriesAfter(m.table, ConnEffectOf(m, l), p, s);
      AnnouncedAfter(m, l, p, s);
    }
  }

  lemma AnnouncedAfter(m: Mgr, l: Label, p: Peer, s: ConnState)
    requires !l.Emit?
    ensures Announced(Next(m, l), p, s) == Announced(m, p, s) + multiset(OwedBy(m, l))[Event(p, s)]
  {}

  lemma EntriesAfter(t: Table, e: ConnEffect, p: Peer, s: ConnState)
    requires Good(t, e) && (s == Established || s == Cooldown)
    ensures Entries(ApplyConn(t, e).conns, p, s) == Entries(t.conns, p, s) +
              (if (e.Set? && t.conns[e.i].peer == p && e.c.hist != t.conns[e.i].hist && e.c.state == s)
                  || (e.Create? && e.p == p && e.c.hist != [Disconnected] && e.c.state == s) then 1 else 0)
  {
    var conns := ApplyConn(t, e).conns;
    match e
    case Keep =>
    case Set(i, c) =>
      EntriesAfterSet(t.conns, i, c, p, s);
      MovedCount(t.conns[i], c, s);
    case Create(q, c) =>
      assert conns[..|conns| - 1] == t.conns;
      MovedCount(NewConn(q), c, s);
      assert Count([Disconnected], s) == 0;
    case ForgetAll => SameHistories(t.conns, conns, p, s);
  }

  lemma MovedCount(c: Conn, d: Conn, s: ConnState)
    requires (OneMove(c, d) || TwoMoves(c, d)) && (s == Established || s == Cooldown)
    ensures Count(d.hist, s) == Count(c.hist, s) + (if d.hist != c.hist && d.state == s then 1 else 0)
  {
    if TwoMoves(c, d) { assert multiset(d.hist) == multiset(c.hist) + multiset{Connecting, Connected}; }
  }

  lemma {:induction false} EntriesBound(conns: seq<Conn>, p: Peer)
    requires forall i :: 0 <= i < |conns| ==> ConnOk(conns[i])
    ensures Entries(conns, p, Established) + Entries(conns, p, Cooldown) <= Entries(conns, p, Connected)
    decreases |conns|
  {
    if |conns| > 0 {
      EntriesBound(conns[..|conns| - 1], p);
      assert ConnOk(conns[|conns| - 1]);
      EachEntryLeavesOnce(conns[|conns| - 1].hist);
    }
  }

  /** Connected, or past it by one of the two outcomes. */
  predicate Settled(s: ConnState) { s == Connected || s == Established || s == Cooldown }

  /** How often an outcome has been announced for `p`. */
  function Outcomes(m: Mgr, p: Peer): nat { Announced(m, p, Established) + Announced(m, p, Cooldown) }

  function Won(l: Label, p: Peer): ConnState {
    if l == MarkEstablished(p) then Established else if l == TimeoutFires(p) then Cooldown else Connected
  }

  /** The outcome asked for by the first competing label of a run, Connected if there is none. */
  function Outcome(run: seq<Label>, p: Peer): ConnState
    decreases |run|
  {
    if |run| == 0 then Connected
    else if Outcome(run[..|run| - 1], p) != Connected then Outcome(run[..|run| - 1], p)
    else Won(run[|run| - 1], p)
  }

  /** No label but a competing one brings about an outcome. */
  lemma OthersAnnounceNothing(m: Mgr, p: Peer, l: Label)
    requires !Competing(l, p)
    ensures Outcomes(Next(m, l), p) == Outcomes(m, p)
  {
    if l.Emit? {
      EmittingKeeps(m, l.e);
    } else {
      OwesNothing(m, p, l, Established);
      OwesNothing(m, p, l, Cooldown);
    }
  }

  lemma OwesNothing(m: Mgr, p: Peer, l: Label, s: ConnState)
    requires !Competing(l, p) && !l.Emit? && (s == Established || s == Cooldown)
    ensures Next(m, l).events == m.events && Next(m, l).pending[Event(p, s)] == m.pending[Event(p, s)]
  {
    if !l.TimeoutFires? && !l.MarkEstablished? { NoOutcomeEvent(m, l, s); }
    assert Event(p, s) !in OwedBy(m, l);
  }

  lemma OthersDecideNothing(m: Mgr, p: Peer, l: Label)
    requires Ok(m) && !Competing(l, p) && Settled(Observed(m, p)) && Settled(Observed(Next(m, l), p))
    ensures Observed(Next(m, l), p) == Observed(m, p)
  {
    if l.TimeoutFires? || l.MarkEstablished? {
      OtherPeerKept(m, p, l);
    } else {
      EffectsAreGood(m, l);
      NoOutcome(m, l, Established);
      NoOutcome(m, l, Cooldown);
      SettledKept(m.table, ConnEffectOf(m, l), p);
    }
  }

  lemma OtherPeerKept(m: Mgr, p: Peer, l: Label)
    requires Ok(m) && (l.TimeoutFires? || l.MarkEstablished?) && l.p != p
    ensures Observed(Next(m, l), p) == Observed(m, p)
  {}

  lemma SettledKept(t: Table, e: ConnEffect, p: Peer)
    requires TableOk(t) && Good(t, e)
    requires e.Set? && (e.c.state == Established || e.c.state == Cooldown) ==> e.c.hist == t.conns[e.i].hist
    requires e.Create? ==> e.c.state != Established && e.c.state != Cooldown
    requires Settled(Lookup(t, p).state) && Settled(Lookup(ApplyConn(t, e), p).state)
    ensures Lookup(ApplyConn(t, e), p).state == Lookup(t, p).state
  {
    assert p in t.connections;
  }

  lemma DecidingStep(m: Mgr, p: Peer, l: Label)
    requires Ok(m) && Settled(Observed(m, p)) && Settled(Observed(Next(m, l), p))
    ensures var n := Next(m, l);
      if Observed(m, p) == Connected
      then Observed(n, p) == Won(l, p)
           && Outcomes(n, p) == Outcomes(m, p) + (if Competing(l, p) then 1 else 0)
      else Observed(n, p) == Observed(m, p) && Outcomes(n, p) == Outcomes(m, p)
  {
    if Competing(l, p) {
      OnlyConnectedMoves(m, p, l);
    } else {
      OthersDecideNothing(m, p, l);
      OthersAnnounceNothing(m, p, l);
    }
  }

  /** From `m` to `n` the peer has gone to `won`, which has been announced once, and nothing
      else about it has changed. */
  ghost predicate WentTo(m: Mgr, n: Mgr, p: Peer, won: ConnState) {
    && Observed(n, p) == won && n.loops == m.loops
    && Lookup(n.table, p).hist == Lookup(m.table, p).hist + (if won == Connected then [] else [won])
    && multiset(n.events) + n.pending
       == multiset(m.events) + m.pending + (if won == Connected then multiset{} else multiset{Event(p, won)})
  }

  lemma WentStep(m: Mgr, n: Mgr, p: Peer, won: ConnState, l: Label)
    requires WentTo(m, n, p, won) && Ok(n) && (Competing(l, p) || l.Emit?)
    ensures WentTo(m, Next(n, l), p, if won == Connected then Won(l, p) else won)
  {
    if l.Emit? {
      EmittingKeeps(n, l.e);
    } else {
      OnlyConnectedMoves(n, p, l);
      var h, v := Lookup(m.table, p).hist, Next(n, l);
      if won == Connected {
        assert h + [] == h;
        assert multiset(v.events) + v.pending == (multiset(n.events) + n.pending) + multiset{Event(p, Won(l, p))};
      }
    }
  }

  /** Competing calls alone, with events emitted in between: the first one wins, whatever
      their number and order. The peer ends in its state, its history has that one entry more,
      one event more has been announced, and no loser changes anything. */
  lemma {:induction false} FirstWins(m: Mgr, p: Peer, run: seq<Label>)
    requires Ok(m) && Observed(m, p) == Connected
    requires forall l :: l in run ==> Competing(l, p) || l.Emit?
    ensures WentTo(m, Exec(Next, m, run), p, Outcome(run, p))
    decreases |run|
  {
    if |run| > 0 {
      var init, l := run[..|run| - 1], run[|run| - 1];
      assert l in run;
      FirstWins(m, p, init);
      RunOk(m, init);
      WentStep(m, Exec(Next, m, init), p, Outcome(init, p), l);
    }
  }

  /** The same with every other section of every peer interleaved, for as long as the peer
      neither disconnects nor has its cooldown ended: its state is that of the first
      competing label, and exactly one outcome has been announced if there was one. */
  lemma {:induction false} FirstWinsAmongAll(m: Mgr, p: Peer, run: seq<Label>)
    requires Ok(m) && Observed(m, p) == Connected
    requires forall k :: 0 <= k <= |run| ==> Settled(Observed(Exec(Next, m, run[..k]), p))
    ensures var n := Exec(Next, m, run);
      && Observed(n, p) == Outcome(run, p)
      && Outcomes(n, p) == Outcomes(m, p) + (if Outcome(run, p) == Connected then 0 else 1)
    decreases |run|
  {
    if |run| > 0 {
      var init, l := run[..|run| - 1], run[|run| - 1];
      assert forall k :: 0 <= k <= |init| ==> init[..k] == run[..k];
      FirstWinsAmongAll(m, p, init);
      RunOk(m, init);
      assert run[..|run|] == run && init == run[..|run| - 1];
      DecidingStep(Exec(Next, m, init), p, l);
    }
  }

  /** In every run, with every other section interleaved: a peer's entries into Established and
      Cooldown are exactly the events that say so, emitted or still pending, and together they
      are at most its entries into Connected; so a connection is completed or timed out once,
      never both, and at no moment has more been emitted than has happened. */
  lemma {:induction false} OneOutcomePerConnection(maxAttempts: int, run: seq<Label>, p: Peer)
    ensures var m := Exec(Next, New(maxAttempts), run); var conns := m.table.conns;
      && Announced(m, p, Established) == Entries(conns, p, Established)
      && Announced(m, p, Cooldown) == Entries(conns, p, Cooldown)
      && Announced(m, p, Established) + Announced(m, p, Cooldown) <= Entries(conns, p, Connected)
      && Emitted(m, p, Established) + Emitted(m, p, Cooldown) <= Entries(conns, p, Connected)
    decreases |run|
  {
    RunOk(New(maxAttempts), run);
    if |run| > 0 {
      var init, l := run[..|run| - 1], run[|run| - 1];
      OneOutcomePerConnection(maxAttempts, init, p);
      RunOk(New(maxAttempts), init);
      StepTellsTheTruth(Exec(Next, New(maxAttempts), init), l, p, Established);
      StepTellsTheTruth(Exec(Next, New(maxAttempts), init), l, p, Cooldown);
    }
    EntriesBound(Exec(Next, New(maxAttempts), run).table.conns, p);
  }

  // ---- Reconnection records ----

  predicate InRange(k: Loops) { forall p :: p in k.reconnecting ==> k.reconnecting[p] < |k.recs| }

  ghost predicate Fresh(k: Loops) {
    && InRange(k)
    && (!k.ctxDone ==> forall p :: p in k.reconnecting ==>
          var rec := k.recs[k.reconnecting[p]];
          rec.peer == p && !rec.cancelled && rec.pc != Exited)
  }

  ghost predicate LoopsOk(m: Mgr) { Fresh(m.loops) }

  /** A loop's own step keeps its record's peer and flag, and exits without deleting the
      entry only when it was cancelled. */
  ghost predicate GoodRec(k: Loops, e: RecEffect) {
    match e
    case Advance(r, rec) =>
      && r < |k.recs| && rec.peer == k.recs[r].peer && rec.cancelled == k.recs[r].cancelled
      && k.recs[r].pc != Exited && (rec.pc == Exited ==> rec.cancelled || k.ctxDone)
    case Leave(r) => r < |k.recs| && k.recs[r].pc != Exited
    case Start(p) => p !in k.reconnecting
    case ForgetRecs => k.ctxDone
    case _ => true
  }

  lemma RecEffectsAreGood(m: Mgr, l: Label)
    ensures GoodRec(m.loops, RecEffectOf(m, l))
    ensures !Cancels(l) ==> var e := RecEffectOf(m, l);
              e.KeepRecs? || e.Advance? || e.Leave? || e.Start?
  {}

  lemma ApplyKeepsFresh(k: Loops, e: RecEffect)
    requires Fresh(k) && GoodRec(k, e)
    ensures Fresh(ApplyRec(k, e))
  {}

  lemma StepFresh(m: Mgr, l: Label)
    requires LoopsOk(m)
    ensures LoopsOk(Next(m, l))
  {
    RecEffectsAreGood(m, l);
    ApplyKeepsFresh(m.loops, RecEffectOf(m, l));
  }

  lemma RunFresh(m: Mgr, run: seq<Label>)
    requires LoopsOk(m)
    ensures LoopsOk(Exec(Next, m, run))
  {
    forall n, l | LoopsOk(n) ensures LoopsOk(Next(n, l)) { StepFresh(n, l); }
    Invariant(Next, LoopsOk, m, run);
  }

  /** Records are never stale: while the manager's context is not cancelled, an entry of
      `reconnecting` is the record of an uncancelled loop for that peer that has not exited. */
  lemma RecordsAreNeverStale(maxAttempts: int, run: seq<Label>, p: Peer)
    ensures var k := Exec(Next, New(maxAttempts), run).loops;
      p in k.reconnecting && !k.ctxDone ==>
        && k.reconnecting[p] < |k.recs|
        && var rec := k.recs[k.reconnecting[p]];
        rec.peer == p && !rec.cancelled && rec.pc != Exited
  {
    RunFresh(New(maxAttempts), run);
  }

  /** Steps a loop still has when attempts are limited. */
  function Fuel(rec: Rec, maxAttempts: int): nat {
    var left := if rec.attempts < maxAttempts then maxAttempts - rec.attempts else 0;
    match rec.pc
    case Created => 2 + 4 * left
    case Checking => 1 + 4 * left
    case Waiting => 4 + 4 * left
    case Woken => 3 + 4 * left
    case Dialing => 2 + 4 * left
    case Succeeded => 1
    case Exited => 0
  }

  predicate Moves(l: Label, r: nat) { l.LoopStep? && l.r == r }

  lemma LoopBurns(k: Loops, r: nat, choice: bool)
    requires r < |k.recs| && k.maxAttempts != 0
    ensures var e, f := LoopEffect(k, r, choice), Fuel(k.recs[r], k.maxAttempts);
      || e == Leave(r)
      || (e.KeepRecs? && f == 0)
      || (e.Advance? && e.r == r && Fuel(e.rec, k.maxAttempts) < f)
  {}

  lemma FuelBurns(m: Mgr, l: Label, r: nat)
    requires r < |m.loops.recs| && m.loops.maxAttempts != 0
    ensures var k, k' := m.loops, Next(m, l).loops;
      && r < |k'.recs| && k'.maxAttempts == k.maxAttempts
      && Fuel(k'.recs[r], k.maxAttempts) <=
           (var f := Fuel(k.recs[r], k.maxAttempts); if Moves(l, r) && f > 0 then f - 1 else f)
  {
    if l.LoopStep? && l.r < |m.loops.recs| { LoopBurns(m.loops, l.r, l.choice); }
    FuelAfter(m.loops, RecEffectOf(m, l), r);
  }

  lemma FuelAfter(k: Loops, e: RecEffect, r: nat)
    requires r < |k.recs| && k.maxAttempts != 0
    ensures var k' := ApplyRec(k, e);
      && r < |k'.recs| && k'.maxAttempts == k.maxAttempts
      && Fuel(k'.recs[r], k.maxAttempts) ==
           if e.Advance? && e.r == r then Fuel(e.rec, k.maxAttempts)
           else if e.Leave? && e.r == r then 0 else Fuel(k.recs[r], k.maxAttempts)
  {}

  /** Number of steps loop `r` takes in a run. */
  function Turns(run: seq<Label>, r: nat): nat
    decreases |run|
  {
    if |run| == 0 then 0
    else Turns(run[..|run| - 1], r) + (if Moves(run[|run| - 1], r) then 1 else 0)
  }

  lemma {:induction false} FuelRunsOut(m: Mgr, run: seq<Label>, r: nat)
    requires r < |m.loops.recs| && m.loops.maxAttempts != 0
    ensures var k, k' := m.loops, Exec(Next, m, run).loops;
      && r < |k'.recs| && k'.maxAttempts == k.maxAttempts
      && (var f, n := Fuel(k.recs[r], k.maxAttempts), Turns(run, r);
          Fuel(k'.recs[r], k.maxAttempts) <= if n < f then f - n else 0)
    decreases |run|
  {
    if |run| > 0 {
      FuelRunsOut(m, run[..|run| - 1], r);
      FuelBurns(Exec(Next, m, run[..|run| - 1]), run[|run| - 1], r);
    }
  }

  /** So the early return of startReconnection is never permanent when attempts are limited:
      after at most `Fuel` steps of the loop that owns the entry, whatever else is
      interleaved, that record is no entry any more. */
  lemma EarlyReturnIsTemporary(m: Mgr, run: seq<Label>, p: Peer)
    requires LoopsOk(m) && !m.loops.ctxDone && m.loops.maxAttempts != 0 && p in m.loops.reconnecting
    ensures var r := m.loops.reconnecting[p]; var n := Exec(Next, m, run);
      Turns(run, r) >= Fuel(m.loops.recs[r], m.loops.maxAttempts) && !n.loops.ctxDone ==>
        && r < |n.loops.recs| && n.loops.recs[r].pc == Exited
        && (forall q :: q in n.loops.reconnecting ==> n.loops.reconnecting[q] != r)
  {
    var r, n := m.loops.reconnecting[p], Exec(Next, m, run);
    FuelRunsOut(m, run, r);
    RunFresh(m, run);
    if Turns(run, r) >= Fuel(m.loops.recs[r], m.loops.maxAttempts) && !n.loops.ctxDone {
      NoFuelMeansExited(n.loops.recs[r], m.loops.maxAttempts);
      FreshNamesNoneExited(n.loops, r);
    }
  }

  lemma NoFuelMeansExited(rec: Rec, maxAttempts: int)
    requires Fuel(rec, maxAttempts) == 0
    ensures rec.pc == Exited
  {}

  lemma FreshNamesNoneExited(k: Loops, r: nat)
    requires Fresh(k) && !k.ctxDone && r < |k.recs| && k.recs[r].pc == Exited
    ensures forall q :: q in k.reconnecting ==> k.reconnecting[q] != r
  {}

  /** Labels that cancel a loop from outside. */
  predicate Cancels(l: Label) {
    l.DisconnectBegin? || l.CancelReconnection? || l.CancelContext? || l.Shutdown?
  }

  /** The converse of RecordsAreNeverStale. */
  ghost predicate Owned(k: Loops) {
    && Fresh(k) && !k.ctxDone
    && forall r :: 0 <= r < |k.recs| && k.recs[r].pc != Exited ==>
         k.recs[r].peer in k.reconnecting && k.reconnecting[k.recs[r].peer] == r
  }

  lemma ApplyKeepsOwned(k: Loops, e: RecEffect)
    requires Owned(k) && GoodRec(k, e) && (e.KeepRecs? || e.Advance? || e.Leave? || e.Start?)
    ensures Owned(ApplyRec(k, e))
  {
    ApplyKeepsFresh(k, e);
  }

  /** Until something cancels a loop, records and running loops correspond one to one, so a
      peer never has two loops. */
  lemma {:induction false} OneLoopPerPeer(maxAttempts: int, run: seq<Label>)
    requires forall l :: l in run ==> !Cancels(l)
    ensures Owned(Exec(Next, New(maxAttempts), run).loops)
    decreases |run|
  {
    if |run| > 0 {
      OneLoopPerPeer(maxAttempts, run[..|run| - 1]);
      var m, l := Exec(Next, New(maxAttempts), run[..|run| - 1]), run[|run| - 1];
      RecEffectsAreGood(m, l);
      ApplyKeepsOwned(m.loops, RecEffectOf(m, l));
    }
  }

  /** Loop `r` has neither been cancelled nor exited. */
  predicate RunsOn(k: Loops, r: nat) { r < |k.recs| && !k.recs[r].cancelled && k.recs[r].pc != Exited }

  predicate HasExited(k: Loops, r: nat) { r < |k.recs| && k.recs[r].pc == Exited }

  predicate HasEntry(k: Loops, r: nat) {
    r < |k.recs| && k.recs[r].peer in k.reconnecting && k.reconnecting[k.recs[r].peer] == r
  }

  /** The label is the end of another loop of the peer of `r`: it succeeded, has used up its
      attempts or finds the peer blacklisted, and deletes whatever entry the peer has. */
  predicate Drops(m: Mgr, l: Label, r: nat) {
    && l.LoopStep? && l.r != r && l.r < |m.loops.recs| && r < |m.loops.recs|
    && m.loops.recs[l.r].peer == m.loops.recs[r].peer
    && (m.loops.recs[l.r].pc.Succeeded? || GivesUp(m.loops, l.r, l.choice))
  }

  /** When a running loop has no entry after a step: exactly when it had none before and has
      not ended, or the step is the end of another loop of its peer. */
  lemma EntryLostExactly(m: Mgr, l: Label, r: nat)
    requires LoopsOk(m) && !m.loops.ctxDone && !Next(m, l).loops.ctxDone
    ensures var k, k' := m.loops, Next(m, l).loops;
      (RunsOn(k', r) && !HasEntry(k', r)) <==>
        (RunsOn(k, r) && !HasEntry(k, r) && !HasExited(k', r))
        || (RunsOn(k, r) && HasEntry(k, r) && Drops(m, l, r))
    ensures r < |m.loops.recs| ==> r < |Next(m, l).loops.recs|
    ensures HasExited(m.loops, r) ==> HasExited(Next(m, l).loops, r)
  {
    RecEffectsAreGood(m, l);
    if l.LoopStep? && l.r < |m.loops.recs| { EndsExactly(m, l); }
    EntryAfter(m.loops, RecEffectOf(m, l), r);
  }

  lemma ContextKept(m: Mgr, l: Label)
    requires l != CancelContext && !m.loops.ctxDone
    ensures !Next(m, l).loops.ctxDone
  {}

  lemma EndsExactly(m: Mgr, l: Label)
    requires l.LoopStep? && l.r < |m.loops.recs|
    ensures RecEffectOf(m, l).Leave? <==> m.loops.recs[l.r].pc.Succeeded? || GivesUp(m.loops, l.r, l.choice)
    ensures RecEffectOf(m, l).Leave? ==> RecEffectOf(m, l).r == l.r
  {}

  lemma EntryAfter(k: Loops, e: RecEffect, r: nat)
    requires Fresh(k) && !k.ctxDone && GoodRec(k, e) && !ApplyRec(k, e).ctxDone
    ensures var k' := ApplyRec(k, e);
      && (r < |k.recs| ==> r < |k'.recs|) && (HasExited(k, r) ==> HasExited(k', r))
      && ((RunsOn(k', r) && !HasEntry(k', r)) <==>
            (RunsOn(k, r) && !HasEntry(k, r) && !HasExited(k', r))
            || (RunsOn(k, r) && HasEntry(k, r) && e.Leave? && e.r != r && k.recs[e.r].peer == k.recs[r].peer))
  {}

  /** The run contains the end of another loop while `r` was running with an entry. */
  predicate EverDropped(m: Mgr, run: seq<Label>, r: nat)
    decreases |run|
  {
    |run| > 0 &&
    var n, l := Exec(Next, m, run[..|run| - 1]), run[|run| - 1];
    EverDropped(m, run[..|run| - 1], r) || (RunsOn(n.loops, r) && HasEntry(n.loops, r) && Drops(n, l, r))
  }

  /** The exact exception to one entry per loop: in every run before the context is cancelled,
      a loop that goes on without an entry, out of reach of every cancellation, is one that
      another loop of its peer outlived its own cancellation to deprive of it. */
  lemma {:induction false} EntriesLostExactly(maxAttempts: int, run: seq<Label>, r: nat)
    requires CancelContext !in run
    ensures var m := Exec(Next, New(maxAttempts), run);
      && LoopsOk(m) && !m.loops.ctxDone
      && (EverDropped(New(maxAttempts), run, r) ==> r < |m.loops.recs|)
      && ((RunsOn(m.loops, r) && !HasEntry(m.loops, r)) <==>
            EverDropped(New(maxAttempts), run, r) && !HasExited(m.loops, r))
    decreases |run|
  {
    if |run| > 0 {
      var init, l := run[..|run| - 1], run[|run| - 1];
      assert l in run && l != CancelContext;
      EntriesLostExactly(maxAttempts, init, r);
      var m := Exec(Next, New(maxAttempts), init);
      StepFresh(m, l);
      ContextKept(m, l);
      EntryLostExactly(m, l, r);
    }
  }

  // ---- Two requests the table refuses ----

  /** A reconnection attempt whose dial succeeds announces Connected and returns success, but
      asks for a move the table refuses from Reconnecting: the peer is Connected afterwards
      exactly when it was already Connected or was Connecting on someone else's account. */
  lemma ReconnectReportsConnected(m: Mgr, r: nat)
    requires Ok(m) && r < |m.loops.recs| && m.loops.recs[r].pc == Dialing
    ensures var p := m.loops.recs[r].peer; var n := Next(m, LoopStep(r, true));
      && n.pending == m.pending + multiset{Event(p, Connected)} && n.loops.recs[r].pc == Succeeded
      && (Observed(n, p) == Connected <==> Observed(m, p) == Connecting || Observed(m, p) == Connected)
  {}

  /** ConnectCtx gets past its first section exactly from Disconnected and Reconnecting: a
      cooldown that has run out but has not been ended still blocks it. */
  lemma ConnectBeginsExactlyFrom(m: Mgr, p: Peer, blacklisted: bool, known: bool, cooling: bool)
    requires Ok(m)
    ensures var n := Next(m, ConnectBegin(p, blacklisted, known, cooling));
      n.pending == m.pending +
        (if !blacklisted && known && (Observed(m, p) == Disconnected || Observed(m, p) == Reconnecting)
         then multiset{Event(p, Connecting)} else multiset{})
  {
    assert multiset([Event(p, Connecting)]) == multiset{Event(p, Connecting)};
  }
}
