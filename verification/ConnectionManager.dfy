/** The connection manager as an object: every method is one lock-held section of
    pkg/connection/manager.go, or the emission of an event after one, and is proved to be the
    corresponding step of the machine in module Connections, whose lemmas therefore speak
    about every sequence of calls. */
module ConnectionManager {
  import opened States
  import opened Connections
  import opened Sections

  /** Getting or making the object of `p` and then overwriting it is one effect. */
  lemma PutIsOneEffect(t: Table, p: Peer, conns: seq<Conn>, i: nat, c: Conn)
    requires InTable(t)
    requires var made := ApplyConn(t, GetOrMake(t, p, Lookup(t, p)));
      i == made.connections[p] && |conns| == |made.conns| && conns == made.conns[i := c]
    ensures ApplyConn(t, GetOrMake(t, p, c)) == Table(ApplyConn(t, GetOrMake(t, p, Lookup(t, p))).connections, conns)
  {}

  /** A section that does its part to each component is the machine's step. */
  lemma IsStep(m: Mgr, l: Label, n: Mgr)
    requires !l.Emit? && n.table == ApplyConn(m.table, ConnEffectOf(m, l))
    requires n.loops == ApplyRec(m.loops, RecEffectOf(m, l))
    requires n.pending == m.pending + multiset(OwedBy(m, l)) && n.events == m.events
    ensures n == Next(m, l)
  {}

  class Manager {
    const maxAttempts: int
    var connections: map<Peer, nat>
    var conns: seq<Conn>
    var reconnecting: map<Peer, nat>
    var recs: seq<Rec>
    var ctxDone: bool
    ghost var pending: multiset<Event>
    var events: seq<Event>

    ghost function View(): Mgr
      reads this
    {
      Mgr(Table(connections, conns), Loops(maxAttempts, reconnecting, recs, ctxDone), pending, events)
    }

    ghost predicate Valid()
      reads this
    {
      InTable(View().table) && InRange(View().loops)
    }

    constructor (maxAttempts: int)
      ensures Valid() && View() == New(maxAttempts)
    {
      this.maxAttempts := maxAttempts;
      connections, conns, reconnecting, recs, ctxDone, events := map[], [], map[], [], false, [];
      pending := multiset{};
    }

    /** PeerConnection.TransitionTo on the object `i`. */
    method TransitionTo(i: nat, s: ConnState) returns (ok: bool)
      requires i < |conns|
      modifies this`conns
      ensures conns == old(conns)[i := Transition(old(conns[i]), s)]
      ensures ok <==> CanTransition(old(conns[i]).state, s)
    {
      ok := CanTransition(conns[i].state, s);
      if ok {
        conns := conns[i := conns[i].(state := s, hist := conns[i].hist + [s])];
      }
    }

    /** Put `c` in place of the connection of `p`. */
    method Replace(p: Peer, c: Conn)
      requires Valid() && p in connections && c.peer == p
      modifies this`conns
      ensures Valid() && View() == old(View()).(table := ApplyConn(old(View()).table, IfKnown(old(View()).table, p, c)))
    {
      conns := conns[connections[p] := c];
    }

    /** The goroutine will emit the event once it has unlocked. */
    ghost method Owe(p: Peer, s: ConnState)
      modifies this`pending
      ensures pending == old(pending) + multiset{Event(p, s)}
    {
      pending := pending + multiset{Event(p, s)};
    }

    method EmitEvent(e: Event)
      requires e in pending
      modifies this`events, this`pending
      ensures View() == Next(old(View()), Emit(e))
    {
      events := events + [e];
      pending := pending - multiset{e};
    }

    method GetOrCreateConnection(p: Peer) returns (i: nat)
      requires Valid()
      modifies this`connections, this`conns
      ensures Valid() && View() == Next(old(View()), GetOrCreate(p))
      ensures p in connections && i == connections[p] < |conns| && conns[i] == Lookup(old(View()).table, p)
    {
      if p !in connections {
        connections := connections[p := |conns|];
        conns := conns + [NewConn(p)];
      }
      i := connections[p];
    }

    method BeginConnect(p: Peer, blacklisted: bool, known: bool, cooling: bool) returns (ok: bool)
      requires Valid()
      modifies this
      ensures Valid() && View() == Next(old(View()), ConnectBegin(p, blacklisted, known, cooling))
      ensures ok <==> !blacklisted && known &&
                      (Observed(old(View()), p) == Disconnected || Observed(old(View()), p) == Reconnecting)
    {
      var refused := blacklisted || !known;
      if p in connections {
        var state := conns[connections[p]].state;
        if IsActive(state) || (state == Cooldown && cooling) { refused := true; }
      }
      ok := false;
      if !refused { ok := StartDial(p); }
      IsStep(old(View()), ConnectBegin(p, blacklisted, known, cooling), View());
    }

    /** The part of ConnectCtx's first section after its checks. */
    method StartDial(p: Peer) returns (ok: bool)
      requires Valid()
      modifies this`connections, this`conns, this`pending
      ensures var t := old(View()).table;
        Table(connections, conns) ==
        ApplyConn(t, GetOrMake(t, p, Transition(Lookup(t, p).(outbound := true), Connecting)))
      ensures ok <==> CanTransition(Lookup(old(View()).table, p).state, Connecting)
      ensures pending == old(pending) + if ok then multiset{Event(p, Connecting)} else multiset{}
    {
      ghost var t := View().table;
      var i := GetOrCreateConnection(p);
      assert conns == ApplyConn(t, GetOrMake(t, p, Lookup(t, p))).conns;
      var c := conns[i].(outbound := true);
      ok := CanTransition(c.state, Connecting);
      conns := conns[i := Transition(c, Connecting)];
      if ok { Owe(p, Connecting); }
      PutIsOneEffect(t, p, conns, i, Transition(Lookup(t, p).(outbound := true), Connecting));
    }

    method FinishConnect(i: nat) returns (ok: bool)
      requires Valid() && i < |conns|
      modifies this
      ensures Valid() && View() == Next(old(View()), ConnectDone(i))
      ensures ok <==> old(conns[i]).state == Connecting
      ensures ok ==> conns[i].state == Connected && conns[i].timer
                     && pending == old(pending) + multiset{Event(conns[i].peer, Connected)}
    {
      ok := TransitionTo(i, Connected);
      if ok {
        conns := conns[i := conns[i].(timer := true)];
        Owe(conns[i].peer, Connected);
      }
      IsStep(old(View()), ConnectDone(i), View());
    }

    method HandleConnectFailure(p: Peer)
      requires Valid()
      modifies this
      ensures Valid() && View() == Next(old(View()), ConnectFailed(p))
      ensures Observed(View(), p) == Disconnected && pending == old(pending) + multiset{Event(p, Disconnected)}
    {
      if p in connections { Replace(p, Transition(conns[connections[p]], Disconnected)); }
      Owe(p, Disconnected);
      IsStep(old(View()), ConnectFailed(p), View());
    }

    method CancelEntryOf(p: Peer)
      requires Valid() && p in reconnecting
      modifies this`reconnecting, this`recs
      ensures View() == old(View()).(loops := ApplyRec(old(View()).loops, CancelEntry(p)))
    {
      var r := reconnecting[p];
      recs := recs[r := recs[r].(cancelled := true)];
      reconnecting := reconnecting - {p};
    }

    method BeginDisconnect(p: Peer) returns (ok: bool)
      requires Valid()
      modifies this
      ensures Valid() && View() == Next(old(View()), DisconnectBegin(p))
      ensures ok <==> p in connections
      ensures ok ==> StopsLoop(old(View()).loops, View().loops, p)
      ensures !ok ==> View() == old(View())
      ensures View().table == old(View()).table && pending == old(pending)
    {
      DisconnectStopsLoop(View(), p);
      if p !in connections { return false; }
      if p in reconnecting { CancelEntryOf(p); }
      return true;
    }

    method EndDisconnect(i: nat)
      requires Valid() && i < |conns|
      modifies this
      ensures Valid() && View() == Next(old(View()), DisconnectEnd(i))
      ensures conns[i].state == Disconnected && pending == old(pending) + multiset{Event(conns[i].peer, Disconnected)}
    {
      var _ := TransitionTo(i, Disconnected);
      Owe(conns[i].peer, Disconnected);
      IsStep(old(View()), DisconnectEnd(i), View());
    }

    method CancelReconnect(p: Peer) returns (ok: bool)
      requires Valid()
      modifies this
      ensures Valid() && View() == Next(old(View()), CancelReconnection(p))
      ensures ok <==> p in old(reconnecting)
      ensures StopsLoop(old(View()).loops, View().loops, p) && pending == old(pending)
      ensures ok ==> Observed(View(), p) == Disconnected
    {
      DisconnectStopsLoop(View(), p);
      if p !in reconnecting { return false; }
      CancelEntryOf(p);
      if p in connections { Replace(p, Transition(conns[connections[p]], Disconnected)); }
      IsStep(old(View()), CancelReconnection(p), View());
      return true;
    }

    method HandleHandshakeTimeout(p: Peer) returns (won: bool)
      requires Valid()
      modifies this
      ensures Valid() && View() == Next(old(View()), TimeoutFires(p))
      ensures won <==> Observed(old(View()), p) == Connected
      ensures won ==> Observed(View(), p) == Cooldown && pending == old(pending) + multiset{Event(p, Cooldown)}
    {
      won := p in connections && conns[connections[p]].state == Connected;
      if won {
        Replace(p, Transition(conns[connections[p]], Cooldown));
        Owe(p, Cooldown);
      }
      IsStep(old(View()), TimeoutFires(p), View());
    }

    method EndCooldown(p: Peer) returns (restart: bool)
      requires Valid()
      modifies this
      ensures Valid() && View() == Next(old(View()), CooldownEnds(p))
      ensures restart <==> Observed(old(View()), p) == Cooldown
      ensures restart ==>
                Observed(View(), p) == Disconnected && pending == old(pending) + multiset{Event(p, Disconnected)}
    {
      restart := p in connections && conns[connections[p]].state == Cooldown;
      if restart {
        Replace(p, Transition(conns[connections[p]], Disconnected));
        Owe(p, Disconnected);
      }
      IsStep(old(View()), CooldownEnds(p), View());
    }

    method StartReconnect(p: Peer, blacklisted: bool) returns (r: nat, started: bool)
      requires Valid()
      modifies this
      ensures Valid() && View() == Next(old(View()), StartReconnection(p, blacklisted))
      ensures started <==> !blacklisted && p !in old(reconnecting) && p in old(connections)
      ensures started ==> p in reconnecting && reconnecting[p] == r < |recs| && recs[r] == Rec(p, false, 0, Created)
    {
      r, started := 0, !blacklisted && p !in reconnecting && p in connections;
      if started {
        r := |recs|;
        recs := recs + [Rec(p, false, 0, Created)];
        reconnecting := reconnecting[p := r];
        Replace(p, Transition(conns[connections[p]], Reconnecting));
        Owe(p, Reconnecting);
      }
      IsStep(old(View()), StartReconnection(p, blacklisted), View());
    }

    method PeerLost(p: Peer)
      requires Valid()
      modifies this
      ensures Valid() && View() == Next(old(View()), OnDisconnect(p))
      ensures Observed(View(), p) == Disconnected
      ensures pending == old(pending) + if p in connections then multiset{Event(p, Disconnected)} else multiset{}
    {
      if p in connections {
        var c := conns[connections[p]].(timer := false);
        Replace(p, Transition(c, Disconnected));
        Owe(p, Disconnected);
      }
      IsStep(old(View()), OnDisconnect(p), View());
    }

    method Establish(p: Peer) returns (ok: bool)
      requires Valid()
      modifies this
      ensures Valid() && View() == Next(old(View()), MarkEstablished(p))
      ensures ok <==> Observed(old(View()), p) == Connected
      ensures ok ==> Observed(View(), p) == Established && !Lookup(View().table, p).timer
                     && pending == old(pending) + multiset{Event(p, Established)}
    {
      if p !in connections { return false; }
      var c := conns[connections[p]].(timer := false);
      ok := CanTransition(c.state, Established);
      Replace(p, Transition(c, Established));
      if ok { Owe(p, Established); }
      IsStep(old(View()), MarkEstablished(p), View());
    }

    method Register(p: Peer)
      requires Valid()
      modifies this
      ensures Valid() && View() == Next(old(View()), RegisterIncoming(p))
    {
      var begins := Accept(p);
      if begins { Owe(p, Connected); }
      IsStep(old(View()), RegisterIncoming(p), View());
    }

    /** The lock-held section of RegisterIncomingConnection. */
    method Accept(p: Peer) returns (begins: bool)
      requires Valid()
      modifies this`connections, this`conns
      ensures Table(connections, conns) == ApplyConn(old(View()).table,
                GetOrMake(old(View()).table, p, Incoming(Lookup(old(View()).table, p))))
      ensures begins <==> Lookup(old(View()).table, p).state == Disconnected
    {
      ghost var t := View().table;
      var i := GetOrCreateConnection(p);
      assert conns == ApplyConn(t, GetOrMake(t, p, Lookup(t, p))).conns;
      var c := conns[i].(outbound := false);
      begins := c.state == Disconnected;
      if begins {
        c := Transition(c, Connecting);
        c := Transition(c, Connected);
        c := c.(timer := true);
      }
      assert c == Incoming(Lookup(t, p));
      conns := conns[i := c];
      PutIsOneEffect(t, p, conns, i, c);
    }

    // ---- reconnectionLoop and attemptReconnect, for loop `r` ----

    /** The retry check. A loop without attempts left deletes the peer's entry and ends. */
    method CheckAttempts(r: nat) returns (goesOn: bool)
      requires Valid() && r < |recs| && recs[r].pc.Checking?
      modifies this
      ensures Valid() && View() == Next(old(View()), LoopStep(r, true))
      ensures goesOn <==> maxAttempts == 0 || old(recs[r]).attempts < maxAttempts
    {
      goesOn := maxAttempts == 0 || recs[r].attempts < maxAttempts;
      if !goesOn {
        GiveUp(r);
      } else {
        recs := recs[r := recs[r].(attempts := recs[r].attempts + 1, pc := Waiting)];
      }
      IsStep(old(View()), LoopStep(r, true), View());
    }

    /** handleReconnectionExhausted and handleReconnectionCancelled. */
    method GiveUp(r: nat)
      requires Valid() && r < |recs|
      modifies this
      ensures Valid() && View().loops == ApplyRec(old(View()).loops, Leave(r)) && events == old(events)
      ensures var t, p := old(View()).table, old(recs[r]).peer;
        View().table == ApplyConn(t, IfKnown(t, p, Transition(Lookup(t, p), Disconnected)))
      ensures pending == old(pending) + multiset{Event(old(recs[r]).peer, Disconnected)}
    {
      var p := recs[r].peer;
      reconnecting := reconnecting - {p};
      recs := recs[r := recs[r].(pc := Exited)];
      if p in connections { var _ := TransitionTo(connections[p], Disconnected); }
      Owe(p, Disconnected);
    }

    /** The wait. It ends by its timer, or, once cancelled, by its context. */
    method EndWait(r: nat, fired: bool) returns (goesOn: bool)
      requires Valid() && r < |recs| && recs[r].pc.Waiting? && (fired || recs[r].cancelled || ctxDone)
      modifies this`recs
      ensures Valid() && View() == Next(old(View()), LoopStep(r, fired))
      ensures goesOn <==> fired
      ensures recs == old(recs)[r := old(recs[r]).(pc := if fired then Woken else Exited)]
    {
      goesOn := fired;
      recs := recs[r := recs[r].(pc := if fired then Woken else Exited)];
    }

    method CheckBlacklist(r: nat, blacklisted: bool) returns (goesOn: bool)
      requires Valid() && r < |recs| && recs[r].pc.Woken?
      modifies this
      ensures Valid() && View() == Next(old(View()), LoopStep(r, blacklisted))
      ensures goesOn <==> !blacklisted
    {
      goesOn := !blacklisted;
      if blacklisted {
        GiveUp(r);
      } else {
        recs := recs[r := recs[r].(pc := Dialing)];
      }
      IsStep(old(View()), LoopStep(r, blacklisted), View());
    }

    /** attemptReconnect after its dial. The refusal of the move to Connected is ignored. */
    method FinishAttempt(r: nat, dialled: bool)
      requires Valid() && r < |recs| && recs[r].pc.Dialing?
      modifies this
      ensures Valid() && View() == Next(old(View()), LoopStep(r, dialled))
      ensures recs[r].pc == if dialled then Succeeded else Checking
    {
      if dialled { Reconnected(recs[r].peer); }
      recs := recs[r := recs[r].(pc := if dialled then Succeeded else Checking)];
      IsStep(old(View()), LoopStep(r, dialled), View());
    }

    method Reconnected(p: Peer)
      requires Valid()
      modifies this`conns, this`pending
      ensures Valid() && pending == old(pending) + multiset{Event(p, Connected)}
      ensures var t := old(View()).table;
        View().table == ApplyConn(t, IfKnown(t, p, Transition(Lookup(t, p), Connected).(timer := true)))
    {
      if p in connections { Replace(p, Transition(conns[connections[p]], Connected).(timer := true)); }
      Owe(p, Connected);
    }

    /** The end of a loop that succeeded. It deletes whatever entry its peer has. */
    method EndLoop(r: nat)
      requires Valid() && r < |recs| && recs[r].pc.Succeeded?
      modifies this`reconnecting, this`recs
      ensures Valid() && forall choice :: View() == Next(old(View()), LoopStep(r, choice))
    {
      reconnecting := reconnecting - {recs[r].peer};
      recs := recs[r := recs[r].(pc := Exited)];
    }

    /** The two loops of Shutdown, after the context has been cancelled. */
    method ShutdownAll()
      requires Valid() && ctxDone
      modifies this
      ensures Valid() && View() == Next(old(View()), Shutdown)
    {
      CleanupEach();
      CancelEach();
      connections, reconnecting := map[], map[];
      IsStep(old(View()), Shutdown, View());
    }

    method CleanupEach()
      requires Valid()
      modifies this`conns
      ensures conns == ApplyConn(old(View()).table, ForgetAll).conns
    {
      var todo := connections.Values;
      while todo != {}
        invariant todo <= connections.Values && |conns| == |old(conns)|
        invariant forall i :: 0 <= i < |conns| ==>
                    conns[i] == if i in connections.Values - todo then old(conns[i]).(timer := false) else old(conns[i])
        decreases todo
      {
        var i :| i in todo;
        assert exists p :: p in connections && connections[p] == i;
        conns := conns[i := conns[i].(timer := false)];
        todo := todo - {i};
      }
    }

    method CancelEach()
      requires InRange(View().loops)
      modifies this`recs
      ensures recs == ApplyRec(old(View()).loops, ForgetRecs).recs
    {
      var todo := reconnecting.Values;
      while todo != {}
        invariant todo <= reconnecting.Values && |recs| == |old(recs)|
        invariant forall r :: 0 <= r < |recs| ==>
                    recs[r] ==
                    if r in reconnecting.Values - todo then old(recs[r]).(cancelled := true) else old(recs[r])
        decreases todo
      {
        var r :| r in todo;
        assert exists p :: p in reconnecting && reconnecting[p] == r;
        recs := recs[r := recs[r].(cancelled := true)];
        todo := todo - {r};
      }
    }
  }
}
