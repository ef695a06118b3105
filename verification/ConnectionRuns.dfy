/** Runs of the connection manager that go wrong, from a new manager: a reconnection that is
    announced and does not happen, a loop that loses its record to one that was cancelled, and
    events out of order. They show that the conditions in module Connections are needed. */
module ConnectionRuns {
  import opened Runs
  import opened States
  import opened Connections

  /** A manager that has met one peer, which has one connection. */
  ghost predicate Knows(m: Mgr, p: Peer, state: ConnState, recs: seq<Rec>, entries: map<Peer, nat>) {
    && m.table.connections == map[p := 0] && |m.table.conns| == 1
    && m.table.conns[0].peer == p && m.table.conns[0].state == state
    && m.loops == Loops(0, entries, recs, false)
  }

  /** A peer connects to the node. */
  lemma Meets(R: Mgr -> bool, p: Peer) returns (m: Mgr)
    requires KeptBy(Next, Any, R) && R(New(0))
    ensures R(m) && Knows(m, p, Connected, [], map[])
    ensures m.pending == multiset{Event(p, Connected)} && m.events == []
  {
    m := Next(New(0), RegisterIncoming(p));
    assert At(New(0), RegisterIncoming(p));
  }

  /** The node dials a peer and fails. */
  lemma FailsToDial(R: Mgr -> bool, p: Peer) returns (m: Mgr)
    requires KeptBy(Next, Any, R) && R(New(0))
    ensures R(m) && Knows(m, p, Disconnected, [], map[])
  {
    var dial := ConnectBegin(p, false, true, false);
    m := Next(New(0), dial);
    assert At(New(0), dial);
    assert Knows(m, p, Connecting, [], map[]);
    assert At(m, ConnectFailed(p));
    m := Next(m, ConnectFailed(p));
  }

  lemma Starts(R: Mgr -> bool, m: Mgr, p: Peer, recs: seq<Rec>) returns (n: Mgr)
    requires KeptBy(Next, Any, R) && R(m) && Knows(m, p, Disconnected, recs, map[])
    ensures R(n) && Knows(n, p, Reconnecting, recs + [Rec(p, false, 0, Created)], map[p := |recs|])
  {
    n := Next(m, StartReconnection(p, false));
    assert At(m, StartReconnection(p, false));
  }

  /** A step of loop 0 that concerns no connection. */
  lemma Moves(R: Mgr -> bool, m: Mgr, p: Peer, recs: seq<Rec>, entries: map<Peer, nat>, choice: bool, rec: Rec)
    returns (n: Mgr)
    requires KeptBy(Next, Any, R) && R(m) && Knows(m, p, Reconnecting, recs, entries) && |recs| > 0
    requires LoopEffect(m.loops, 0, choice) == Advance(0, rec) && !recs[0].pc.Dialing?
    ensures R(n) && Knows(n, p, Reconnecting, recs[0 := rec], entries)
  {
    n := Next(m, LoopStep(0, choice));
    assert At(m, LoopStep(0, choice));
  }

  /** A reconnection loop of `p` on its first attempt. */
  lemma Dials(R: Mgr -> bool, p: Peer) returns (m: Mgr)
    requires KeptBy(Next, Any, R) && R(New(0))
    ensures R(m) && Knows(m, p, Reconnecting, [Rec(p, false, 1, Dialing)], map[p := 0])
  {
    m := FailsToDial(R, p);
    m := Starts(R, m, p, []);
    m := FirstAttempt(R, m, p);
  }

  lemma FirstAttempt(R: Mgr -> bool, s: Mgr, p: Peer) returns (m: Mgr)
    requires KeptBy(Next, Any, R) && R(s) && Knows(s, p, Reconnecting, [Rec(p, false, 0, Created)], map[p := 0])
    ensures R(m) && Knows(m, p, Reconnecting, [Rec(p, false, 1, Dialing)], map[p := 0])
  {
    var e := map[p := 0];
    m := Moves(R, s, p, [Rec(p, false, 0, Created)], e, true, Rec(p, false, 0, Checking));
    m := Moves(R, m, p, [Rec(p, false, 0, Checking)], e, true, Rec(p, false, 1, Waiting));
    m := Moves(R, m, p, [Rec(p, false, 1, Waiting)], e, true, Rec(p, false, 1, Woken));
    m := Moves(R, m, p, [Rec(p, false, 1, Woken)], e, false, Rec(p, false, 1, Dialing));
  }

  lemma DialSucceeds(R: Mgr -> bool, m: Mgr, p: Peer, recs: seq<Rec>, entries: map<Peer, nat>) returns (n: Mgr)
    requires KeptBy(Next, Any, R) && R(m) && Knows(m, p, Reconnecting, recs, entries) && |recs| > 0
    requires recs[0].pc == Dialing && recs[0].peer == p
    ensures R(n) && Knows(n, p, Reconnecting, recs[0 := recs[0].(pc := Succeeded)], entries)
    ensures n.pending == m.pending + multiset{Event(p, Connected)}
  {
    n := Next(m, LoopStep(0, true));
    assert At(m, LoopStep(0, true));
  }

  lemma IsCancelled(R: Mgr -> bool, m: Mgr, p: Peer) returns (n: Mgr)
    requires KeptBy(Next, Any, R) && R(m) && Knows(m, p, Reconnecting, [Rec(p, false, 1, Dialing)], map[p := 0])
    ensures R(n) && Knows(n, p, Disconnected, [Rec(p, true, 1, Dialing)], map[])
  {
    n := Next(m, CancelReconnection(p));
    assert At(m, CancelReconnection(p));
    assert map[p := 0] - {p} == map[];
  }

  lemma Leaves(R: Mgr -> bool, m: Mgr, p: Peer, other: Rec) returns (n: Mgr)
    requires KeptBy(Next, Any, R) && R(m) && Knows(m, p, Reconnecting, [Rec(p, true, 1, Succeeded), other], map[p := 1])
    ensures R(n) && Knows(n, p, Reconnecting, [Rec(p, true, 1, Exited), other], map[])
  {
    n := Next(m, LoopStep(0, true));
    assert At(m, LoopStep(0, true));
    assert map[p := 1] - {p} == map[];
    assert n.loops.recs == [Rec(p, true, 1, Exited), other];
  }

  ghost predicate Reachable(m: Mgr) { Reach(Next, Any, New(0), m) }

  /** A dial fails, the first reconnection attempt dials successfully, and the Connected
      event is due while the peer is Reconnecting. */
  lemma ReconnectionNotConnected(p: Peer)
    ensures exists m :: Reachable(m) && Event(p, Connected) in m.pending && Observed(m, p) == Reconnecting
                        && m.loops.recs == [Rec(p, false, 1, Succeeded)]
  {
    ReachableIsClosed(Next, Any, New(0));
    var m := Dials(m => Reach(Next, Any, New(0), m), p);
    m := DialSucceeds(m => Reach(Next, Any, New(0), m), m, p, [Rec(p, false, 1, Dialing)], map[p := 0]);
    assert Reachable(m);
  }

  lemma LateSuccess(R: Mgr -> bool, p: Peer) returns (m: Mgr)
    requires KeptBy(Next, Any, R) && R(New(0))
    ensures R(m) && Knows(m, p, Reconnecting, [Rec(p, true, 1, Exited), Rec(p, false, 0, Created)], map[])
  {
    var old', new' := Rec(p, true, 1, Dialing), Rec(p, false, 0, Created);
    m := Dials(R, p);
    m := IsCancelled(R, m, p);
    m := Starts(R, m, p, [old']);
    assert [old'] + [new'] == [old', new'];
    m := DialSucceeds(R, m, p, [old', new'], map[p := 1]);
    m := Leaves(R, m, p, new');
  }

  /** A reconnection is cancelled while it dials, another one is started, and the first
      succeeds after all: the second runs on without an entry. */
  lemma LateSuccessDropsSuccessor(p: Peer)
    ensures exists m :: Reachable(m) && RunsOn(m.loops, 1) && !HasEntry(m.loops, 1) && !m.loops.ctxDone
  {
    ReachableIsClosed(Next, Any, New(0));
    var m := LateSuccess(m => Reach(Next, Any, New(0), m), p);
    assert Reachable(m);
  }

  lemma Expires(R: Mgr -> bool, m: Mgr, p: Peer) returns (n: Mgr)
    requires KeptBy(Next, Any, R) && R(m) && Knows(m, p, Connected, [], map[])
    ensures R(n) && Knows(n, p, Cooldown, [], map[])
    ensures n.pending == m.pending + multiset{Event(p, Cooldown)} && n.events == m.events
  {
    n := Next(m, TimeoutFires(p));
    assert At(m, TimeoutFires(p));
  }

  lemma BeginsDisconnect(R: Mgr -> bool, m: Mgr, p: Peer) returns (n: Mgr)
    requires KeptBy(Next, Any, R) && R(m) && Knows(m, p, Cooldown, [], map[])
    ensures R(n) && Knows(n, p, Cooldown, [], map[]) && n.pending == m.pending && n.events == m.events
  {
    n := Next(m, DisconnectBegin(p));
    assert At(m, DisconnectBegin(p));
  }

  lemma CleansUp(R: Mgr -> bool, m: Mgr, p: Peer) returns (n: Mgr)
    requires KeptBy(Next, Any, R) && R(m) && Knows(m, p, Cooldown, [], map[])
    ensures R(n) && Knows(n, p, Cooldown, [], map[]) && n.pending == m.pending && n.events == m.events
  {
    n := Next(m, Cleanup(0));
    assert At(m, Cleanup(0));
  }

  lemma EndsDisconnect(R: Mgr -> bool, m: Mgr, p: Peer) returns (n: Mgr)
    requires KeptBy(Next, Any, R) && R(m) && Knows(m, p, Cooldown, [], map[])
    ensures R(n) && Knows(n, p, Disconnected, [], map[])
    ensures n.pending == m.pending + multiset{Event(p, Disconnected)} && n.events == m.events
  {
    n := Next(m, DisconnectEnd(0));
    assert At(m, DisconnectEnd(0));
  }

  /** DisconnectCtx, its three sections in a row. */
  lemma Disconnects(R: Mgr -> bool, m: Mgr, p: Peer) returns (n: Mgr)
    requires KeptBy(Next, Any, R) && R(m) && Knows(m, p, Cooldown, [], map[])
    ensures R(n) && Knows(n, p, Disconnected, [], map[])
    ensures n.pending == m.pending + multiset{Event(p, Disconnected)} && n.events == m.events
  {
    n := BeginsDisconnect(R, m, p);
    n := CleansUp(R, n, p);
    n := EndsDisconnect(R, n, p);
  }

  lemma EmitsNow(R: Mgr -> bool, m: Mgr, e: Event) returns (n: Mgr)
    requires KeptBy(Next, Any, R) && R(m) && e in m.pending
    ensures R(n) && n.events == m.events + [e] && n.pending == m.pending - multiset{e}
    ensures n.table == m.table && n.loops == m.loops
  {
    n := Next(m, Emit(e));
    assert At(m, Emit(e));
  }

  lemma CooldownEmittedLate(R: Mgr -> bool, p: Peer) returns (m: Mgr)
    requires KeptBy(Next, Any, R) && R(New(0))
    ensures R(m) && m.events == [Event(p, Connected), Event(p, Disconnected), Event(p, Cooldown)]
  {
    m := Meets(R, p);
    m := EmitsNow(R, m, Event(p, Connected));
    m := Expires(R, m, p);
    m := Disconnects(R, m, p);
    m := EmitsNow(R, m, Event(p, Disconnected));
    m := EmitsNow(R, m, Event(p, Cooldown));
  }

  /** Events may be emitted out of order: the handshake times out, the application disconnects
      before the timeout has emitted its event, and Cooldown comes out after Disconnected. */
  lemma EventsOutOfOrder(p: Peer)
    ensures exists m :: Reachable(m)
                        && m.events == [Event(p, Connected), Event(p, Disconnected), Event(p, Cooldown)]
  {
    ReachableIsClosed(Next, Any, New(0));
    var m := CooldownEmittedLate(m => Reach(Next, Any, New(0), m), p);
    assert Reachable(m);
  }

  lemma TimesOut(R: Mgr -> bool, p: Peer) returns (m: Mgr)
    requires KeptBy(Next, Any, R) && R(New(0))
    ensures R(m) && Knows(m, p, Cooldown, [], map[])
  {
    m := Meets(R, p);
    m := Expires(R, m, p);
  }

  /** A cooldown that has run out and not been ended blocks a connect to a known peer. */
  lemma ExpiredCooldownBlocks(p: Peer)
    ensures exists m :: Reachable(m) && Observed(m, p) == Cooldown
                        && Next(m, ConnectBegin(p, false, true, false)).pending == m.pending
                        && Observed(Next(m, ConnectBegin(p, false, true, false)), p) == Cooldown
  {
    ReachableIsClosed(Next, Any, New(0));
    var m := TimesOut(m => Reach(Next, Any, New(0), m), p);
    assert Reachable(m);
    BlockedByCooldown(m, p);
  }

  lemma BlockedByCooldown(m: Mgr, p: Peer)
    requires Knows(m, p, Cooldown, [], map[])
    ensures var n := Next(m, ConnectBegin(p, false, true, false));
      Observed(m, p) == Cooldown && Observed(n, p) == Cooldown && n.pending == m.pending
  {
    assert OwedBy(m, ConnectBegin(p, false, true, false)) == [];
  }
}
