/** What the sections of the connection manager do, said of the state alone: the observed
    state of a peer, its reconnection records, and the events that become pending. Nothing
    here speaks of how module Connections computes a step. */
module Sections {
  import opened Runs
  import opened States
  import opened Connections

  // ---- The state of a peer ----

  /** Loop `r` has no attempts left, or finds its peer blacklisted. */
  predicate Ends(m: Mgr, r: nat, choice: bool)
    requires r < |m.loops.recs|
  {
    var rec := m.loops.recs[r];
    || (rec.pc.Checking? && m.loops.maxAttempts != 0 && rec.attempts >= m.loops.maxAttempts)
    || (rec.pc.Woken? && choice)
  }

  /** The one connection object a section names by index is the peer's. */
  predicate IsOf(m: Mgr, i: nat, p: Peer) { p in m.table.connections && m.table.connections[p] == i }

  /** Every section, and when it moves which peer from where to where. */
  function Goes(m: Mgr, l: Label, p: Peer): ConnState {
    var s := Observed(m, p);
    match l
    case ConnectBegin(q, blacklisted, known, _) =>
      if q == p && !blacklisted && known && (s == Disconnected || s == Reconnecting) then Connecting else s
    case ConnectDone(i) => if IsOf(m, i, p) && s == Connecting then Connected else s
    case ConnectFailed(q) => if q == p then Disconnected else s
    case DisconnectEnd(i) => if IsOf(m, i, p) then Disconnected else s
    case CancelReconnection(q) => if q == p && p in m.loops.reconnecting then Disconnected else s
    case TimeoutFires(q) => if q == p && s == Connected then Cooldown else s
    case CooldownEnds(q) => if q == p && s == Cooldown then Disconnected else s
    case StartReconnection(q, blacklisted) =>
      if q == p && !blacklisted && p in m.table.connections && p !in m.loops.reconnecting
         && (s == Disconnected || s == Cooldown) then Reconnecting else s
    case OnDisconnect(q) => if q == p then Disconnected else s
    case MarkEstablished(q) => if q == p && s == Connected then Established else s
    case RegisterIncoming(q) => if q == p && s == Disconnected then Connected else s
    case Shutdown => if m.loops.ctxDone then Disconnected else s
    case LoopStep(r, choice) =>
      if r >= |m.loops.recs| || m.loops.recs[r].peer != p then s
      else if Ends(m, r, choice) then Disconnected
      else if m.loops.recs[r].pc.Dialing? && choice && s == Connecting then Connected else s
    case _ => s
  }

  lemma ObservedExactly(m: Mgr, l: Label, p: Peer)
    requires Ok(m)
    ensures Observed(Next(m, l), p) == Goes(m, l, p)
  {
    assert Next(m, l).table == ApplyConn(m.table, ConnEffectOf(m, l));
    if l.LoopStep? { LoopGoes(m, l, p); }
    else if l.ConnectBegin? { DialGoes(m, l, p); }
    else if l.RegisterIncoming? || l.GetOrCreate? { IncomingGoes(m, l, p); }
    else if l.ConnectDone? || l.Cleanup? || l.DisconnectEnd? { IndexGoes(m, l, p); }
    else if l.TimeoutFires? || l.MarkEstablished? { OutcomeGoes(m, l, p); }
    else if l.StartReconnection? { StartGoes(m, l, p); }
    else { DownGoes(m, l, p); }
  }

  ghost predicate GoesSo(m: Mgr, l: Label, p: Peer) {
    Lookup(ApplyConn(m.table, ConnEffectOf(m, l)), p).state == Goes(m, l, p)
  }

  /** Putting `c` in place of the connection of `q` changes what is seen of `q` only. */
  lemma AfterKnown(t: Table, q: Peer, c: Conn, p: Peer)
    requires InTable(t) && c.peer == q
    ensures Lookup(ApplyConn(t, IfKnown(t, q, c)), p) ==
            if p == q && q in t.connections then c else Lookup(t, p)
  {}

  lemma LoopGoes(m: Mgr, l: Label, p: Peer)
    requires Ok(m) && l.LoopStep?
    ensures GoesSo(m, l, p)
  {
    if l.r < |m.loops.recs| {
      var q := m.loops.recs[l.r].peer;
      AfterKnown(m.table, q, Transition(Lookup(m.table, q), Disconnected), p);
      AfterKnown(m.table, q, Transition(Lookup(m.table, q), Connected).(timer := true), p);
    }
  }

  lemma DialGoes(m: Mgr, l: Label, p: Peer)
    requires Ok(m) && l.ConnectBegin?
    ensures GoesSo(m, l, p)
  {}

  lemma IncomingGoes(m: Mgr, l: Label, p: Peer)
    requires Ok(m) && (l.RegisterIncoming? || l.GetOrCreate?)
    ensures GoesSo(m, l, p)
  {}

  lemma IndexGoes(m: Mgr, l: Label, p: Peer)
    requires Ok(m) && (l.ConnectDone? || l.Cleanup? || l.DisconnectEnd?)
    ensures GoesSo(m, l, p)
  {}

  lemma OutcomeGoes(m: Mgr, l: Label, p: Peer)
    requires Ok(m) && (l.TimeoutFires? || l.MarkEstablished?)
    ensures GoesSo(m, l, p)
  {
    var c := Lookup(m.table, l.p);
    if l.MarkEstablished? { AfterKnown(m.table, l.p, Transition(c.(timer := false), Established), p); }
    else { AfterKnown(m.table, l.p, Transition(c, Cooldown), p); }
  }

  lemma StartGoes(m: Mgr, l: Label, p: Peer)
    requires Ok(m) && l.StartReconnection?
    ensures GoesSo(m, l, p)
  {
    AfterKnown(m.table, l.p, Transition(Lookup(m.table, l.p), Reconnecting), p);
  }

  lemma DownGoes(m: Mgr, l: Label, p: Peer)
    requires Ok(m) && !l.LoopStep? && !l.ConnectBegin? && !l.RegisterIncoming? && !l.GetOrCreate?
    requires !l.ConnectDone? && !l.Cleanup? && !l.DisconnectEnd?
    requires !l.TimeoutFires? && !l.MarkEstablished? && !l.StartReconnection?
    ensures GoesSo(m, l, p)
  {}

  /** A dial that gets past the checks makes the connection outbound, even if the table then
      refuses it; an incoming connection makes it inbound; nothing else touches the direction. */
  lemma DirectionExactly(m: Mgr, l: Label, p: Peer)
    requires Ok(m) && !l.Shutdown?
    ensures Lookup(Next(m, l).table, p).outbound == DirectionAfter(m, l, p)
  {
    assert Next(m, l).table == ApplyConn(m.table, ConnEffectOf(m, l));
    if l.ConnectBegin? {
      DialDirection(m, l, p);
    } else if l.RegisterIncoming? {
      IncomingDirection(m, l, p);
    } else {
      EffectsAreGood(m, l);
      DirectionEffect(m, l);
      DirectionKept(m.table, ConnEffectOf(m, l), p);
    }
  }

  predicate DirectionAfter(m: Mgr, l: Label, p: Peer) {
    var s := Observed(m, p);
    if l.RegisterIncoming? && l.p == p then false
    else if l.ConnectBegin? && l.p == p && !l.blacklisted && l.known
            && s != Connecting && s != Connected && s != Established && !(s == Cooldown && l.cooling) then true
    else Lookup(m.table, p).outbound
  }

  lemma DialDirection(m: Mgr, l: Label, p: Peer)
    requires Ok(m) && l.ConnectBegin?
    ensures Lookup(ApplyConn(m.table, ConnEffectOf(m, l)), p).outbound == DirectionAfter(m, l, p)
  {}

  lemma IncomingDirection(m: Mgr, l: Label, p: Peer)
    requires Ok(m) && l.RegisterIncoming?
    ensures Lookup(ApplyConn(m.table, ConnEffectOf(m, l)), p).outbound == DirectionAfter(m, l, p)
  {}

  lemma DirectionKept(t: Table, e: ConnEffect, p: Peer)
    requires TableOk(t) && Good(t, e) && !e.ForgetAll?
    requires (e.Set? ==> e.c.outbound == t.conns[e.i].outbound) && (e.Create? ==> !e.c.outbound)
    ensures Lookup(ApplyConn(t, e), p).outbound == Lookup(t, p).outbound
  {}

  lemma DirectionEffect(m: Mgr, l: Label)
    requires Ok(m) && !l.Shutdown? && !l.ConnectBegin? && !l.RegisterIncoming?
    ensures var e := ConnEffectOf(m, l);
      && !e.ForgetAll?
      && (e.Set? ==> e.i < |m.table.conns| && e.c.outbound == m.table.conns[e.i].outbound)
      && (e.Create? ==> !e.c.outbound)
  {}

  // ---- Events ----

  /** A section owes an event of `p` although it does not move `p`: a dial that failed, a
      disconnect of a connection that was disconnected or forgotten, a forgotten connection
      that was dialled, a reconnection that started or an attempt that succeeded from a state
      the table does not let it leave, and a loop that gave up on a peer already lost. */
  predicate Repeats(m: Mgr, l: Label, p: Peer, s: ConnState) {
    match l
    case ConnectFailed(q) => q == p && s == Disconnected
    case OnDisconnect(q) => q == p && p in m.table.connections && s == Disconnected
    case DisconnectEnd(i) => i < |m.table.conns| && m.table.conns[i].peer == p && s == Disconnected
    case ConnectDone(i) =>
      i < |m.table.conns| && m.table.conns[i].peer == p && m.table.conns[i].state == Connecting && s == Connected
    case StartReconnection(q, blacklisted) =>
      q == p && !blacklisted && p in m.table.connections && p !in m.loops.reconnecting && s == Reconnecting
    case LoopStep(r, choice) =>
      && r < |m.loops.recs| && m.loops.recs[r].peer == p
      && ((s == Disconnected && Ends(m, r, choice)) || (s == Connected && m.loops.recs[r].pc.Dialing? && choice))
    case _ => false
  }

  /** The events of a peer that a section leaves pending: if it moves the peer, and is neither
      a cancelled reconnection nor a shutdown, exactly one, which names the new state; if it
      does not, one exactly where it repeats itself; and nothing that was pending is lost. */
  lemma EventsExactly(m: Mgr, l: Label, p: Peer, s: ConnState)
    requires Ok(m) && !l.Emit?
    ensures var n := Next(m, l); var added := n.pending[Event(p, s)] - m.pending[Event(p, s)];
      && n.events == m.events
      && (Observed(n, p) != Observed(m, p) && !l.CancelReconnection? && !l.Shutdown? ==>
            added == if s == Observed(n, p) then 1 else 0)
      && (Observed(n, p) == Observed(m, p) ==> added == if Repeats(m, l, p, s) then 1 else 0)
      && (l.CancelReconnection? || l.Shutdown? ==> added == 0)
  {
    ObservedExactly(m, l, p);
    AddedIsOwed(m, l, p, s);
    OwedIsOwes(m, l);
    OwesExactly(m, l, p, s);
  }

  lemma AddedIsOwed(m: Mgr, l: Label, p: Peer, s: ConnState)
    requires !l.Emit?
    ensures Next(m, l).events == m.events
    ensures Next(m, l).pending[Event(p, s)] == m.pending[Event(p, s)] + multiset(OwedBy(m, l))[Event(p, s)]
  {}

  /** The events a section owes. */
  function Owes(m: Mgr, l: Label): seq<Event> {
    match l
    case ConnectBegin(q, blacklisted, known, _) =>
      if !blacklisted && known && (Observed(m, q) == Disconnected || Observed(m, q) == Reconnecting)
      then [Event(q, Connecting)] else []
    case ConnectDone(i) =>
      if i < |m.table.conns| && m.table.conns[i].state == Connecting
      then [Event(m.table.conns[i].peer, Connected)] else []
    case ConnectFailed(q) => [Event(q, Disconnected)]
    case DisconnectEnd(i) => if i < |m.table.conns| then [Event(m.table.conns[i].peer, Disconnected)] else []
    case TimeoutFires(q) => if Observed(m, q) == Connected then [Event(q, Cooldown)] else []
    case CooldownEnds(q) => if Observed(m, q) == Cooldown then [Event(q, Disconnected)] else []
    case StartReconnection(q, blacklisted) =>
      if !blacklisted && q in m.table.connections && q !in m.loops.reconnecting then [Event(q, Reconnecting)] else []
    case OnDisconnect(q) => if q in m.table.connections then [Event(q, Disconnected)] else []
    case MarkEstablished(q) => if Observed(m, q) == Connected then [Event(q, Established)] else []
    case RegisterIncoming(q) => if Observed(m, q) == Disconnected then [Event(q, Connected)] else []
    case LoopStep(r, choice) =>
      if r >= |m.loops.recs| then []
      else if Ends(m, r, choice) then [Event(m.loops.recs[r].peer, Disconnected)]
      else if m.loops.recs[r].pc.Dialing? && choice then [Event(m.loops.recs[r].peer, Connected)]
      else []
    case _ => []
  }

  lemma OwedIsOwes(m: Mgr, l: Label)
    requires Ok(m)
    ensures OwedBy(m, l) == Owes(m, l)
  {}

  /** What a section owes for `p` names where it takes `p`, or repeats where `p` is. */
  predicate OwesSo(m: Mgr, l: Label, p: Peer, s: ConnState) {
    var added, from, to := multiset(Owes(m, l))[Event(p, s)], Observed(m, p), Goes(m, l, p);
    if l.CancelReconnection? || l.Shutdown? then added == 0
    else if to != from then added == if s == to then 1 else 0
    else added == if Repeats(m, l, p, s) then 1 else 0
  }

  lemma OwesExactly(m: Mgr, l: Label, p: Peer, s: ConnState)
    requires Ok(m)
    ensures OwesSo(m, l, p, s)
  {
    if l.LoopStep? { LoopOwes(m, l, p, s); }
    else if l.ConnectDone? || l.DisconnectEnd? { IndexOwes(m, l, p, s); }
    else { PeerOwes(m, l, p, s); }
  }

  lemma LoopOwes(m: Mgr, l: Label, p: Peer, s: ConnState)
    requires l.LoopStep?
    ensures OwesSo(m, l, p, s)
  {}

  lemma IndexOwes(m: Mgr, l: Label, p: Peer, s: ConnState)
    requires InTable(m.table) && (l.ConnectDone? || l.DisconnectEnd?)
    ensures OwesSo(m, l, p, s)
  {}

  lemma PeerOwes(m: Mgr, l: Label, p: Peer, s: ConnState)
    requires InTable(m.table) && !l.LoopStep? && !l.ConnectDone? && !l.DisconnectEnd?
    ensures OwesSo(m, l, p, s)
  {
    if l.ConnectFailed? || l.OnDisconnect? || l.CooldownEnds? || l.StartReconnection? {
      AgainOwes(m, l, p, s);
    }
  }

  lemma AgainOwes(m: Mgr, l: Label, p: Peer, s: ConnState)
    requires InTable(m.table) && (l.ConnectFailed? || l.OnDisconnect? || l.CooldownEnds? || l.StartReconnection?)
    ensures OwesSo(m, l, p, s)
  {}

  /** Every move of a peer is announced, in every run: the moves into a state by sections that
      are neither a cancelled reconnection nor a shutdown are at most the events that name it. */
  function Moves(m: Mgr, run: seq<Label>, p: Peer, s: ConnState): nat
    decreases |run|
  {
    if |run| == 0 then 0 else
    var before, l := Exec(Next, m, run[..|run| - 1]), run[|run| - 1];
    var moved := Observed(before, p) != s && Observed(Next(before, l), p) == s;
    Moves(m, run[..|run| - 1], p, s) + (if moved && !l.CancelReconnection? && !l.Shutdown? then 1 else 0)
  }

  lemma {:induction false} MovesAreAnnounced(maxAttempts: int, run: seq<Label>, p: Peer, s: ConnState)
    ensures Moves(New(maxAttempts), run, p, s) <= Announced(Exec(Next, New(maxAttempts), run), p, s)
    decreases |run|
  {
    if |run| > 0 {
      var init, l := run[..|run| - 1], run[|run| - 1];
      var m := Exec(Next, New(maxAttempts), init);
      MovesAreAnnounced(maxAttempts, init, p, s);
      RunOk(New(maxAttempts), init);
      AnnouncedOnce(m, l, p, s);
    }
  }

  lemma AnnouncedOnce(m: Mgr, l: Label, p: Peer, s: ConnState)
    requires Ok(m)
    ensures Announced(Next(m, l), p, s) >= Announced(m, p, s)
    ensures Observed(m, p) != s && Observed(Next(m, l), p) == s && !l.CancelReconnection? && !l.Shutdown? ==>
              Announced(Next(m, l), p, s) == Announced(m, p, s) + 1
  {
    if l.Emit? { EmittingKeeps(m, l.e); } else { EventsExactly(m, l, p, s); }
  }

  // ---- Reconnection records ----

  /** Where a step takes a loop's record. A wait that is cancelled ends the loop unless its timer
      comes first. */
  ghost predicate RecordMoves(m: Mgr, r: nat, choice: bool, rec: Rec, rec': Rec)
    requires r < |m.loops.recs|
  {
    && rec'.peer == rec.peer && rec'.cancelled == rec.cancelled
    && rec'.attempts == rec.attempts + (if rec.pc.Checking? && !Ends(m, r, choice) then 1 else 0)
    && rec'.pc ==
       (match rec.pc
        case Created => Checking
        case Checking => if Ends(m, r, choice) then Exited else Waiting
        case Waiting => if !choice && (rec.cancelled || m.loops.ctxDone) then Exited else Woken
        case Woken => if choice then Exited else Dialing
        case Dialing => if choice then Succeeded else Checking
        case Succeeded => Exited
        case Exited => Exited)
  }

  lemma LoopRecord(m: Mgr, r: nat, choice: bool)
    requires r < |m.loops.recs|
    ensures var k, k' := m.loops, ApplyRec(m.loops, LoopEffect(m.loops, r, choice));
      && |k'.recs| == |k.recs| && RecordMoves(m, r, choice, k.recs[r], k'.recs[r])
      && (forall i :: 0 <= i < |k.recs| && i != r ==> k'.recs[i] == k.recs[i])
  {}

  /** A step of a loop moves its record so, and deletes its peer's entry exactly when the loop
      gives up or has succeeded. No other record and no other peer's entry changes. */
  lemma LoopExactly(m: Mgr, r: nat, choice: bool)
    requires r < |m.loops.recs|
    ensures var k, k' := m.loops, Next(m, LoopStep(r, choice)).loops; var rec := k.recs[r];
      && |k'.recs| == |k.recs| && k'.maxAttempts == k.maxAttempts && k'.ctxDone == k.ctxDone
      && RecordMoves(m, r, choice, rec, k'.recs[r])
      && (forall i :: 0 <= i < |k.recs| && i != r ==> k'.recs[i] == k.recs[i])
      && k'.reconnecting ==
         if Ends(m, r, choice) || rec.pc.Succeeded? then k.reconnecting - {rec.peer} else k.reconnecting
  {
    LoopRecord(m, r, choice);
    assert Next(m, LoopStep(r, choice)).loops == ApplyRec(m.loops, LoopEffect(m.loops, r, choice));
  }

  /** Only the record that is the peer's entry is cancelled, and the entry is gone. */
  ghost predicate StopsLoop(k: Loops, k': Loops, p: Peer) {
    && p !in k'.reconnecting && |k'.recs| == |k.recs|
    && (p in k.reconnecting && k.reconnecting[p] < |k.recs| ==>
          var r := k.reconnecting[p]; k'.recs[r] == k.recs[r].(cancelled := true))
    && (forall i :: 0 <= i < |k.recs| && !(p in k.reconnecting && k.reconnecting[p] == i) ==> k'.recs[i] == k.recs[i])
    && (forall q :: q != p ==> (q in k'.reconnecting <==> q in k.reconnecting))
    && (forall q :: q in k'.reconnecting ==> k'.reconnecting[q] == k.reconnecting[q])
    && k'.maxAttempts == k.maxAttempts && k'.ctxDone == k.ctxDone
  }

  /** A disconnect of a known peer stops its reconnection loop, and so does a cancellation. */
  lemma DisconnectStopsLoop(m: Mgr, p: Peer)
    ensures StopsLoop(m.loops, Next(m, CancelReconnection(p)).loops, p)
    ensures p in m.table.connections ==> StopsLoop(m.loops, Next(m, DisconnectBegin(p)).loops, p)
    ensures p !in m.table.connections ==> Next(m, DisconnectBegin(p)).loops == m.loops
    ensures Next(m, DisconnectBegin(p)).table == m.table && Next(m, DisconnectBegin(p)).pending == m.pending
  {}

  /** The other sections: a reconnection that starts makes a new record and the peer's entry;
      a shutdown cancels every entry's record and forgets the entries; nothing else touches
      the records. */
  lemma RecordsExactly(m: Mgr, l: Label)
    requires !l.LoopStep? && !l.DisconnectBegin? && !l.CancelReconnection?
    ensures var k, k' := m.loops, Next(m, l).loops;
      match l
      case StartReconnection(p, blacklisted) =>
        if !blacklisted && p in m.table.connections && p !in k.reconnecting
        then k'.reconnecting == k.reconnecting[p := |k.recs|] && k'.recs == k.recs + [Rec(p, false, 0, Created)]
             && k'.maxAttempts == k.maxAttempts && k'.ctxDone == k.ctxDone
        else k' == k
      case CancelContext => k' == k.(ctxDone := true)
      case Shutdown =>
        if !k.ctxDone then k' == k
        else && k'.reconnecting == map[] && |k'.recs| == |k.recs| && k'.ctxDone
             && (forall p :: p in k.reconnecting && k.reconnecting[p] < |k.recs| ==>
                   k'.recs[k.reconnecting[p]].cancelled)
             && (forall i :: 0 <= i < |k.recs| ==>
                   k'.recs[i] == k.recs[i] || k'.recs[i] == k.recs[i].(cancelled := true))
      case _ => k' == k
  {
    if l.Shutdown? && m.loops.ctxDone { assert Next(m, l).loops.recs == ApplyRec(m.loops, ForgetRecs).recs; }
  }
}
