/** The handshake timers behind the connection manager's timer flag (setupHandshakeTimeout,
    CancelHandshakeTimeout and Cleanup in pkg/connection/manager.go and peer.go). Every arming
    makes a new timer and overwrites the connection's, which it does not stop. A timer that
    fires looks whether it was stopped, and calls the timeout handler afterwards; so it may
    act on a connection that has a newer timer. The machine is that of module Connections with
    the timers beside it. */
module HandshakeTimers {
  import opened Basics
  import opened Runs
  import opened States
  import opened Connections
  import opened Sections

  datatype Timer = Timer(conn: nat, peer: Peer, stopped: bool, fired: bool, handled: bool)

  /** `current` is the timer each connection object has, by index. */
  datatype State = State(m: Mgr, timers: seq<Timer>, current: map<nat, nat>)

  datatype Move =
    | Section(l: Label)
    | Fire(id: nat)      // the timer runs out and finds its context live
    | Handle(id: nat)    // then its timeout handler takes the lock

  function Start(maxAttempts: int): State { State(New(maxAttempts), [], map[]) }

  /** The connection a section arms a timer for. */
  function Arms(m: Mgr, l: Label): Option<nat> {
    var t := m.table;
    match l
    case ConnectDone(i) => if i < |t.conns| && CanTransition(t.conns[i].state, Connected) then Some(i) else None
    case RegisterIncoming(p) =>
      if Lookup(t, p).state != Disconnected then None
      else Some(if p in t.connections then t.connections[p] else |t.conns|)
    case LoopStep(r, choice) =>
      if r < |m.loops.recs| && m.loops.recs[r].pc.Dialing? && choice && m.loops.recs[r].peer in t.connections
      then Some(t.connections[m.loops.recs[r].peer]) else None
    case _ => None
  }

  /** The connections whose timer a section stops. */
  function Disarms(m: Mgr, l: Label): set<nat> {
    match l
    case Cleanup(i) => {i}
    case OnDisconnect(p) => if p in m.table.connections then {m.table.connections[p]} else {}
    case MarkEstablished(p) => if p in m.table.connections then {m.table.connections[p]} else {}
    case Shutdown => if m.loops.ctxDone then m.table.connections.Values else {}
    case _ => {}
  }

  /** Timer `id` is the one its connection has. */
  predicate IsCurrent(s: State, id: nat)
    requires id < |s.timers|
  {
    s.timers[id].conn in s.current && s.current[s.timers[id].conn] == id
  }

  function Stopped(s: State, conns: set<nat>): seq<Timer> {
    seq(|s.timers|, i requires 0 <= i < |s.timers| =>
      if s.timers[i].conn in conns && IsCurrent(s, i) then s.timers[i].(stopped := true) else s.timers[i])
  }

  function PeerAt(m: Mgr, i: nat): Peer { if i < |m.table.conns| then m.table.conns[i].peer else "" }

  function Sectioned(s: State, l: Label): State {
    var n := Connections.Next(s.m, l);
    var timers, current := Stopped(s, Disarms(s.m, l)), s.current - Disarms(s.m, l);
    match Arms(s.m, l)
    case None => State(n, timers, current)
    case Some(i) => State(n, timers + [Timer(i, PeerAt(n, i), false, false, false)], current[i := |timers|])
  }

  function Next(s: State, v: Move): State {
    match v
    case Section(l) => if l.TimeoutFires? then s else Sectioned(s, l)
    case Fire(id) =>
      if id < |s.timers| && !s.timers[id].stopped && !s.timers[id].fired && !s.m.loops.ctxDone
      then s.(timers := s.timers[id := s.timers[id].(fired := true)]) else s
    case Handle(id) =>
      if id < |s.timers| && s.timers[id].fired && !s.timers[id].handled
      then State(Connections.Next(s.m, TimeoutFires(s.timers[id].peer)),
                 s.timers[id := s.timers[id].(handled := true)], s.current)
      else s
  }

  /** The section arms a timer for a connection that has timer `id`. */
  predicate Overwrites(s: State, v: Move, id: nat) {
    v.Section? && !v.l.TimeoutFires? && id < |s.timers| && IsCurrent(s, id) && Arms(s.m, v.l) == Some(s.timers[id].conn)
  }

  predicate Overwritten(s: State, run: seq<Move>, id: nat)
    decreases |run|
  {
    |run| > 0 && (Overwritten(s, run[..|run| - 1], id)
                  || Overwrites(Exec(Next, s, run[..|run| - 1]), run[|run| - 1], id))
  }

  /** A newer timer has been armed for the connection of `id`. */
  ghost predicate Stale(s: State, id: nat)
    requires id < |s.timers|
  {
    exists later :: id < later < |s.timers| && s.timers[later].conn == s.timers[id].conn
  }

  // ---- Which timers can still act ----

  /** The entries of `current` are the newest timers of their connections, not stopped. */
  ghost predicate TimersOk(s: State) {
    && (forall i :: i in s.current ==> s.current[i] < |s.timers|)
    && (forall i :: i in s.current ==> s.timers[s.current[i]].conn == i && !s.timers[s.current[i]].stopped)
    && (forall i, id: nat :: i in s.current && id < |s.timers| && s.timers[id].conn == i ==> id <= s.current[i])
  }

  /** The flag of module Connections says which connections have a timer. */
  predicate FlagsOk(t: Table, current: map<nat, nat>) {
    && (forall i :: i in current ==> i < |t.conns|)
    && (forall i: nat :: i < |t.conns| ==> (t.conns[i].timer <==> i in current))
  }

  ghost predicate Ok(s: State) { Connections.Ok(s.m) && TimersOk(s) && FlagsOk(s.m.table, s.current) }

  lemma NeverBoth(m: Mgr, l: Label)
    ensures Arms(m, l).Some? ==> Disarms(m, l) == {}
  {}

  lemma StopKeepsTimers(s: State, conns: set<nat>)
    requires TimersOk(s)
    ensures TimersOk(State(s.m, Stopped(s, conns), s.current - conns))
  {}

  lemma ArmKeepsTimers(s: State, i: nat, peer: Peer)
    requires TimersOk(s)
    ensures TimersOk(State(s.m, s.timers + [Timer(i, peer, false, false, false)], s.current[i := |s.timers|]))
  {}

  lemma SectionTimersOk(s: State, l: Label)
    requires TimersOk(s)
    ensures TimersOk(Sectioned(s, l))
  {
    var conns := Disarms(s.m, l);
    StopKeepsTimers(s, conns);
    if Arms(s.m, l).Some? {
      ArmKeepsTimers(State(s.m, Stopped(s, conns), s.current - conns), Arms(s.m, l).value,
                     PeerAt(Connections.Next(s.m, l), Arms(s.m, l).value));
    }
  }

  /** The effect of a section on the timer flags is to set the one it arms and clear those it
      stops. */
  ghost predicate FlagEffect(t: Table, e: ConnEffect, arms: Option<nat>, disarms: set<nat>) {
    match e
    case Keep => arms.None? && forall i :: i in disarms ==> i >= |t.conns|
    case Set(i, c) =>
      && i < |t.conns| && (arms.None? || arms == Some(i)) && disarms <= {i}
      && c.timer == (if arms.Some? then true else if i in disarms then false else t.conns[i].timer)
    case Create(_, c) => (arms.None? || arms == Some(|t.conns|)) && disarms == {} && c.timer == arms.Some?
    case ForgetAll => arms.None? && disarms == t.connections.Values
  }

  lemma SectionFlag(m: Mgr, l: Label)
    requires Connections.Ok(m)
    ensures FlagEffect(m.table, ConnEffectOf(m, l), Arms(m, l), Disarms(m, l))
  {
    match l
    case LoopStep(r, choice) => LoopFlag(m, r, choice);
    case _ =>
  }

  lemma LoopFlag(m: Mgr, r: nat, choice: bool)
    requires Connections.Ok(m)
    ensures FlagEffect(m.table, ConnEffectOf(m, LoopStep(r, choice)), Arms(m, LoopStep(r, choice)), {})
  {}

  lemma FlagsAfter(t: Table, e: ConnEffect, current: map<nat, nat>, arms: Option<nat>, disarms: set<nat>, id: nat)
    requires FlagsOk(t, current) && FlagEffect(t, e, arms, disarms) && (arms.Some? ==> disarms == {})
    ensures FlagsOk(ApplyConn(t, e), if arms.None? then current - disarms else (current - disarms)[arms.value := id])
  {}

  lemma SectionFlagsOk(s: State, l: Label)
    requires Ok(s)
    ensures FlagsOk(Connections.Next(s.m, l).table, Sectioned(s, l).current)
  {
    SectionFlag(s.m, l);
    NeverBoth(s.m, l);
    FlagsAfter(s.m.table, ConnEffectOf(s.m, l), s.current, Arms(s.m, l), Disarms(s.m, l), |s.timers|);
  }

  lemma StepOk(s: State, v: Move)
    requires Ok(s)
    ensures Ok(Next(s, v))
  {
    match v
    case Section(l) =>
      if !l.TimeoutFires? {
        Connections.StepOk(s.m, l);
        SectionTimersOk(s, l);
        SectionFlagsOk(s, l);
      }
    case Fire(_) =>
    case Handle(id) =>
      if id < |s.timers| {
        Connections.StepOk(s.m, TimeoutFires(s.timers[id].peer));
        TimeoutKeepsFlags(s.m, s.timers[id].peer, s.current);
      }
  }

  lemma TimeoutKeepsFlags(m: Mgr, p: Peer, current: map<nat, nat>)
    requires FlagsOk(m.table, current)
    ensures FlagsOk(Connections.Next(m, TimeoutFires(p)).table, current)
  {}

  lemma RunOk(s: State, run: seq<Move>)
    requires Ok(s)
    ensures Ok(Exec(Next, s, run))
  {
    forall t, v | Ok(t) ensures Ok(Next(t, v)) { StepOk(t, v); }
    Invariant(Next, Ok, s, run);
  }

  /** What one step does to timer `id`. */
  lemma TimerStep(s: State, v: Move, id: nat)
    requires Ok(s) && id < |s.timers|
    ensures var n := Next(s, v);
      && id < |n.timers| && n.timers[id].conn == s.timers[id].conn && n.timers[id].peer == s.timers[id].peer
      && (s.timers[id].stopped ==> n.timers[id].stopped)
      && (n.timers[id].stopped && !s.timers[id].stopped ==> IsCurrent(s, id))
      && (IsCurrent(n, id) <==> IsCurrent(s, id) && !n.timers[id].stopped && !Overwrites(s, v, id))
      && (Stale(s, id) ==> Stale(n, id)) && (Overwrites(s, v, id) ==> Stale(n, id) && !n.timers[id].stopped)
  {
    if v.Section? && !v.l.TimeoutFires? {
      NeverBoth(s.m, v.l);
      SectionTimer(s, v.l, id);
      SectionStale(s, v.l, id);
    } else {
      assert |Next(s, v).timers| == |s.timers|;
      if Stale(s, id) {
        var later :| id < later < |s.timers| && s.timers[later].conn == s.timers[id].conn;
        assert Next(s, v).timers[later].conn == s.timers[later].conn;
      }
    }
  }

  lemma SectionTimer(s: State, l: Label, id: nat)
    requires Ok(s) && id < |s.timers| && (Arms(s.m, l).Some? ==> Disarms(s.m, l) == {})
    ensures var n, arms := Sectioned(s, l), Arms(s.m, l);
      && id < |n.timers| && n.timers[id].conn == s.timers[id].conn && n.timers[id].peer == s.timers[id].peer
      && n.timers[id].fired == s.timers[id].fired
      && (n.timers[id].stopped <==> s.timers[id].stopped || (IsCurrent(s, id) && s.timers[id].conn in Disarms(s.m, l)))
      && (IsCurrent(n, id) <==>
            IsCurrent(s, id) && s.timers[id].conn !in Disarms(s.m, l) && arms != Some(s.timers[id].conn))
  {}

  lemma SectionStale(s: State, l: Label, id: nat)
    requires Ok(s) && id < |s.timers| && id < |Sectioned(s, l).timers|
    ensures Stale(s, id) || Arms(s.m, l) == Some(s.timers[id].conn) ==> Stale(Sectioned(s, l), id)
  {
    var n, arms := Sectioned(s, l), Arms(s.m, l);
    assert n.timers[id].conn == s.timers[id].conn;
    if Stale(s, id) {
      var later :| id < later < |s.timers| && s.timers[later].conn == s.timers[id].conn;
      assert n.timers[later].conn == s.timers[later].conn;
    }
    if arms == Some(s.timers[id].conn) { assert n.timers[|s.timers|].conn == s.timers[id].conn; }
  }

  /** A timer is its connection's unless it has been stopped or overwritten, and never both;
      one that has been overwritten is stale, and one that is its connection's is not. */
  lemma {:induction false} CurrentExactly(maxAttempts: int, run: seq<Move>, id: nat)
    ensures var s := Exec(Next, Start(maxAttempts), run); var lost := Overwritten(Start(maxAttempts), run, id);
      && Ok(s) && (lost ==> id < |s.timers|)
      && (id < |s.timers| ==>
            && (IsCurrent(s, id) <==> !s.timers[id].stopped && !lost)
            && !(s.timers[id].stopped && lost)
            && (lost ==> Stale(s, id)) && (IsCurrent(s, id) ==> !Stale(s, id)))
    decreases |run|
  {
    RunOk(Start(maxAttempts), run);
    if |run| > 0 {
      var init, v := run[..|run| - 1], run[|run| - 1];
      var s := Exec(Next, Start(maxAttempts), init);
      CurrentExactly(maxAttempts, init, id);
      if id < |s.timers| { TimerStep(s, v, id); } else { NewTimer(s, v, id); }
    }
  }

  lemma NewTimer(s: State, v: Move, id: nat)
    requires Ok(s) && id >= |s.timers|
    ensures var n := Next(s, v);
      id < |n.timers| ==> id == |s.timers| && IsCurrent(n, id) && !n.timers[id].stopped && !Stale(n, id)
  {
    if v.Section? { NeverBoth(s.m, v.l); }
  }

  /** A timer that can still fire belongs to an earlier arming if and only if an arming found
      it in place and overwrote it. */
  lemma EarlierFiresExactly(maxAttempts: int, run: seq<Move>, id: nat)
    ensures var s := Exec(Next, Start(maxAttempts), run);
      id < |s.timers| && !s.timers[id].stopped ==>
        (Stale(s, id) <==> Overwritten(Start(maxAttempts), run, id))
  {
    CurrentExactly(maxAttempts, run, id);
  }

  /** A timeout that wins: its peer goes from Connected to Cooldown. It is not the timeout of
      the timer its connection has if and only if that timer was overwritten while in place, or
      was stopped only after it had fired. */
  lemma WinningTimeoutExactly(maxAttempts: int, run: seq<Move>, id: nat)
    ensures var s := Exec(Next, Start(maxAttempts), run);
      id < |s.timers| && s.timers[id].fired && !s.timers[id].handled
      && Observed(s.m, s.timers[id].peer) == Connected ==>
        && Observed(Next(s, Handle(id)).m, s.timers[id].peer) == Cooldown
        && (!IsCurrent(s, id) <==> Overwritten(Start(maxAttempts), run, id) || s.timers[id].stopped)
  {
    CurrentExactly(maxAttempts, run, id);
    var s := Exec(Next, Start(maxAttempts), run);
    if id < |s.timers| {
      OnlyConnectedMoves(s.m, s.timers[id].peer, TimeoutFires(s.timers[id].peer));
    }
  }

  /** In every run the timer flag of a connection says whether it has a timer, which is then
      its newest and has not been stopped. */
  lemma FlagIsTimer(maxAttempts: int, run: seq<Move>, i: nat)
    ensures var s := Exec(Next, Start(maxAttempts), run);
      i < |s.m.table.conns| ==>
        && (s.m.table.conns[i].timer <==> i in s.current)
        && (i in s.current ==> s.current[i] < |s.timers| && s.timers[s.current[i]].conn == i
                               && !s.timers[s.current[i]].stopped && !Stale(s, s.current[i]))
  {
    RunOk(Start(maxAttempts), run);
  }

  /** A timer fires once, and only while it is not stopped and the manager is not shut down; its
      handler acts once, and only after that; and no timeout puts a peer in Cooldown otherwise. */
  lemma FiresExactly(s: State, v: Move, id: nat, p: Peer)
    requires Ok(s) && id < |s.timers|
    ensures var n, was := Next(s, v), s.timers[id];
      && id < |n.timers|
      && (n.timers[id].fired <==> was.fired || (v == Fire(id) && !was.stopped && !s.m.loops.ctxDone))
      && (n.timers[id].handled <==> was.handled || (v == Handle(id) && was.fired))
      && (Observed(s.m, p) != Cooldown && Observed(n.m, p) == Cooldown ==>
            && v.Handle? && v.id < |s.timers| && s.timers[v.id].peer == p
            && s.timers[v.id].fired && !s.timers[v.id].handled)
  {
    if v.Section? && !v.l.TimeoutFires? {
      NeverBoth(s.m, v.l);
      SectionHandled(s, v.l, id);
      NoCooldown(s.m, v.l, p);
    } else if v.Handle? && v.id < |s.timers| {
      if s.timers[v.id].peer != p { OtherPeerKept(s.m, p, TimeoutFires(s.timers[v.id].peer)); }
    }
  }

  lemma SectionHandled(s: State, l: Label, id: nat)
    requires id < |s.timers|
    ensures var n := Sectioned(s, l);
      id < |n.timers| && n.timers[id].fired == s.timers[id].fired && n.timers[id].handled == s.timers[id].handled
  {}

  lemma NoCooldown(m: Mgr, l: Label, p: Peer)
    requires Connections.Ok(m) && !l.TimeoutFires?
    ensures Observed(Connections.Next(m, l), p) == Cooldown ==> Observed(m, p) == Cooldown
  {
    ObservedExactly(m, l, p);
  }

  // ---- A timeout before its time ----

  /** One peer, with one connection, and the timers there are. */
  ghost predicate Knows(s: State, p: Peer, state: ConnState, recs: seq<Rec>, entries: map<Peer, nat>,
                        timers: seq<Timer>, current: map<nat, nat>) {
    && s.m.table.connections == map[p := 0] && |s.m.table.conns| == 1
    && s.m.table.conns[0].peer == p && s.m.table.conns[0].state == state
    && s.m.loops == Loops(0, entries, recs, false) && s.timers == timers && s.current == current
  }

  /** A section that neither arms nor stops a timer. */
  lemma Plain(R: State -> bool, s: State, l: Label) returns (n: State)
    requires KeptBy(Next, Any, R) && R(s) && !l.TimeoutFires? && Arms(s.m, l).None? && Disarms(s.m, l) == {}
    ensures R(n) && n == State(Connections.Next(s.m, l), s.timers, s.current)
  {
    n := Next(s, Section(l));
    assert At(s, Section(l));
    assert Stopped(s, {}) == s.timers && s.current - {} == s.current;
  }

  lemma Arming(R: State -> bool, s: State, l: Label) returns (n: State)
    requires KeptBy(Next, Any, R) && R(s) && !l.TimeoutFires? && Arms(s.m, l).Some? && Disarms(s.m, l) == {}
    ensures R(n)
    ensures var i, m := Arms(s.m, l).value, Connections.Next(s.m, l);
      n == State(m, s.timers + [Timer(i, PeerAt(m, i), false, false, false)], s.current[i := |s.timers|])
  {
    n := Next(s, Section(l));
    assert At(s, Section(l));
    assert Stopped(s, {}) == s.timers && s.current - {} == s.current;
  }

  /** A dial fails and a reconnection loop is started. */
  lemma Reconnects(R: State -> bool, p: Peer) returns (s: State)
    requires KeptBy(Next, Any, R) && R(Start(0))
    ensures R(s) && Knows(s, p, Reconnecting, [Rec(p, false, 0, Created)], map[p := 0], [], map[])
  {
    s := Plain(R, Start(0), ConnectBegin(p, false, true, false));
    assert Knows(s, p, Connecting, [], map[], [], map[]);
    s := Fails(R, s, p);
    s := Begins(R, s, p);
  }

  lemma Fails(R: State -> bool, s: State, p: Peer) returns (n: State)
    requires KeptBy(Next, Any, R) && R(s) && Knows(s, p, Connecting, [], map[], [], map[])
    ensures R(n) && Knows(n, p, Disconnected, [], map[], [], map[])
  {
    n := Plain(R, s, ConnectFailed(p));
  }

  lemma Begins(R: State -> bool, s: State, p: Peer) returns (n: State)
    requires KeptBy(Next, Any, R) && R(s) && Knows(s, p, Disconnected, [], map[], [], map[])
    ensures R(n) && Knows(n, p, Reconnecting, [Rec(p, false, 0, Created)], map[p := 0], [], map[])
  {
    n := Plain(R, s, StartReconnection(p, false));
  }

  lemma Advances(R: State -> bool, s: State, p: Peer, rec: Rec, choice: bool, rec': Rec) returns (n: State)
    requires KeptBy(Next, Any, R) && R(s) && Knows(s, p, Reconnecting, [rec], map[p := 0], [], map[])
    requires LoopEffect(s.m.loops, 0, choice) == Advance(0, rec') && !rec.pc.Dialing?
    ensures R(n) && Knows(n, p, Reconnecting, [rec'], map[p := 0], [], map[])
  {
    n := Plain(R, s, LoopStep(0, choice));
    assert [rec][0 := rec'] == [rec'];
  }

  lemma FirstAttempt(R: State -> bool, s: State, p: Peer) returns (n: State)
    requires KeptBy(Next, Any, R) && R(s)
    requires Knows(s, p, Reconnecting, [Rec(p, false, 0, Created)], map[p := 0], [], map[])
    ensures R(n) && Knows(n, p, Reconnecting, [Rec(p, false, 1, Dialing)], map[p := 0], [], map[])
  {
    n := Advances(R, s, p, Rec(p, false, 0, Created), true, Rec(p, false, 0, Checking));
    n := Advances(R, n, p, Rec(p, false, 0, Checking), true, Rec(p, false, 1, Waiting));
    n := Advances(R, n, p, Rec(p, false, 1, Waiting), true, Rec(p, false, 1, Woken));
    n := Advances(R, n, p, Rec(p, false, 1, Woken), false, Rec(p, false, 1, Dialing));
  }

  /** The attempt succeeds: a timer is armed although the peer stays Reconnecting. */
  lemma ArmsAnyway(R: State -> bool, s: State, p: Peer) returns (n: State)
    requires KeptBy(Next, Any, R) && R(s)
    requires Knows(s, p, Reconnecting, [Rec(p, false, 1, Dialing)], map[p := 0], [], map[])
    ensures R(n)
    ensures Knows(n, p, Reconnecting, [Rec(p, false, 1, Succeeded)], map[p := 0],
                  [Timer(0, p, false, false, false)], map[0 := 0])
  {
    n := Arming(R, s, LoopStep(0, true));
    assert n.m.loops.recs == [Rec(p, false, 1, Succeeded)];
  }

  /** The application connects: the timer is overwritten. */
  lemma Redials(R: State -> bool, s: State, p: Peer, recs: seq<Rec>, entries: map<Peer, nat>, timer: Timer)
    returns (n: State)
    requires KeptBy(Next, Any, R) && R(s) && Knows(s, p, Reconnecting, recs, entries, [timer], map[0 := 0])
    ensures R(n) && Knows(n, p, Connecting, recs, entries, [timer], map[0 := 0])
  {
    n := Plain(R, s, ConnectBegin(p, false, true, false));
  }

  lemma ArmsAgain(R: State -> bool, s: State, p: Peer, recs: seq<Rec>, entries: map<Peer, nat>, timer: Timer)
    returns (n: State)
    requires KeptBy(Next, Any, R) && R(s) && Knows(s, p, Connecting, recs, entries, [timer], map[0 := 0])
    ensures R(n)
    ensures Knows(n, p, Connected, recs, entries, [timer, Timer(0, p, false, false, false)], map[0 := 1])
  {
    n := Arming(R, s, ConnectDone(0));
    assert [timer] + [Timer(0, p, false, false, false)] == [timer, Timer(0, p, false, false, false)];
  }

  lemma FiresFirst(R: State -> bool, s: State, p: Peer, recs: seq<Rec>, entries: map<Peer, nat>) returns (n: State)
    requires KeptBy(Next, Any, R) && R(s)
    requires var timer := Timer(0, p, false, false, false);
      Knows(s, p, Connected, recs, entries, [timer, timer], map[0 := 1])
    ensures R(n) && Observed(n.m, p) == Cooldown && |n.timers| == 2 && n.timers[0].handled && !n.timers[1].fired
    ensures IsCurrent(n, 1) && !n.timers[1].stopped
  {
    n := Next(s, Fire(0));
    assert At(s, Fire(0));
    assert n.timers == [Timer(0, p, false, true, false), Timer(0, p, false, false, false)] && n.m == s.m;
    assert At(n, Handle(0));
    n := Next(n, Handle(0));
  }

  lemma EarlyTimeoutRun(R: State -> bool, p: Peer) returns (s: State)
    requires KeptBy(Next, Any, R) && R(Start(0))
    ensures R(s) && Observed(s.m, p) == Cooldown && |s.timers| == 2 && s.timers[0].handled && !s.timers[1].fired
    ensures IsCurrent(s, 1) && !s.timers[1].stopped
  {
    var recs, entries := [Rec(p, false, 1, Succeeded)], map[p := 0];
    s := Reconnects(R, p);
    s := FirstAttempt(R, s, p);
    s := ArmsAnyway(R, s, p);
    s := Redials(R, s, p, recs, entries, Timer(0, p, false, false, false));
    s := ArmsAgain(R, s, p, recs, entries, Timer(0, p, false, false, false));
    s := FiresFirst(R, s, p, recs, entries);
  }

  /** From a new manager: a reconnection attempt arms a timer on a peer that stays
      Reconnecting, the application connects, and the old timer puts the new connection in
      Cooldown while its own timer has not fired. */
  lemma EarlyTimeoutHappens(p: Peer)
    ensures exists s :: Reach(Next, Any, Start(0), s) && Observed(s.m, p) == Cooldown
                        && |s.timers| == 2 && s.timers[0].handled && IsCurrent(s, 1)
                        && !s.timers[1].fired && !s.timers[1].stopped
  {
    ReachableIsClosed(Next, Any, Start(0));
    var s := EarlyTimeoutRun(s => Reach(Next, Any, Start(0), s), p);
  }
}
