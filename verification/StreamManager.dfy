/** The stream manager as an object: each method is one lock-held section of
    pkg/streams/manager.go, proved to be the corresponding step of module Streams. The calls
    in progress (`opens`) are bookkeeping the source keeps on goroutine stacks. */
module StreamManager {
  import opened Streams

  lemma ClosedUnder(objs: seq<Stream>, entries: map<Slot, nat>)
    ensures forall s :: s in entries && entries[s] < |objs| ==> CloseAll(objs, entries.Values)[entries[s]].closed
  {}

  class Manager {
    var streams: map<Slot, nat>
    var objs: seq<Stream>
    var allowed: map<Peer, set<Name>>
    var keys: set<Peer>
    var opens: map<nat, Open>

    ghost function View(): Registry
      reads this
    {
      Registry(streams, objs, allowed, keys, opens)
    }

    ghost predicate Valid()
      reads this
    {
      Ok(View())
    }

    constructor ()
      ensures Valid() && View() == New()
    {
      streams, objs, allowed, keys, opens := map[], [], map[], {}, map[];
    }

    method EstablishStreams(p: Peer, names: seq<Name>, derived: bool) returns (ok: bool)
      requires Valid()
      modifies this
      ensures Valid() && View() == Next(old(View()), Establish(p, (set n | n in names), derived))
      ensures ok <==> names != [] && derived
      ensures ok ==> forall n :: n in names ==> Allowed(View(), p, n) && p in keys
      ensures forall q, n :: Allowed(View(), q, n) <==> Allowed(old(View()), q, n) || (ok && q == p && n in names)
      ensures forall q :: q in keys <==> q in old(keys) || (ok && q == p)
      ensures streams == old(streams) && objs == old(objs)
    {
      StepOk(View(), Establish(p, (set n | n in names), derived));
      if |names| == 0 { return false; }
      ghost var all := set n | n in names;
      assert names[0] in all;
      if !derived { return false; }
      keys := keys + {p};
      if p !in allowed { allowed := allowed[p := {}]; }
      AllowEach(p, names);
      assert allowed == old(allowed)[p := (if p in old(allowed) then old(allowed)[p] else {}) + all];
      return true;
    }

    method AllowEach(p: Peer, names: seq<Name>)
      requires p in allowed
      modifies this`allowed
      ensures allowed == old(allowed)[p := old(allowed)[p] + (set n | n in names)]
    {
      for i := 0 to |names|
        invariant p in allowed && allowed == old(allowed)[p := allowed[p]]
        invariant forall n :: n in allowed[p] <==> n in old(allowed)[p] || n in names[..i]
      {
        allowed := allowed[p := allowed[p] + {names[i]}];
      }
      assert allowed[p] == old(allowed)[p] + (set n | n in names);
    }

    method BeginOpen(t: nat, slot: Slot) returns (o: Open)
      requires Valid() && OpenOf(View(), t).Idle?
      modifies this
      ensures Valid() && View() == Next(old(View()), Check(t, slot)) && o == OpenOf(View(), t)
      ensures o.Opened? <==> Live(old(View()), slot)
      ensures o == Failed(NotAllowed) <==>
              slot.kind.Encrypted? && !Live(View(), slot) && !Allowed(View(), slot.peer, slot.name)
      ensures o == Dialing(slot) <==>
              !Live(View(), slot) && (slot.kind.Encrypted? ==> Allowed(View(), slot.peer, slot.name))
      ensures o.Failed? ==> o.error == NotAllowed && slot.kind.Encrypted? && !Allowed(View(), slot.peer, slot.name)
    {
      StepOk(View(), Check(t, slot));
      CheckExactly(View(), t, slot);
      assert slot in streams ==> EntryOk(View(), slot);
      if slot in streams && !objs[streams[slot]].closed {
        o := Opened(slot, streams[slot]);
      } else if slot.kind.Encrypted? && (slot.peer !in allowed || slot.name !in allowed[slot.peer]) {
        o := Failed(NotAllowed);
      } else if slot.kind.Encrypted? && slot.peer !in keys {
        o := Failed(NoKey);
      } else {
        o := Dialing(slot);
      }
      opens := opens[t := o];
    }

    method FinishDial(t: nat, ok: bool)
      requires Valid() && OpenOf(View(), t).Dialing?
      modifies this
      ensures Valid() && View() == Next(old(View()), Dial(t, ok))
      ensures ok ==> opens[t] == Holding(old(opens)[t].slot, |old(objs)|)
                     && objs == old(objs) + [Stream(old(opens)[t].slot, Opener(t), false, false)]
      ensures !ok ==> opens[t] == Failed(DialFailed) && objs == old(objs)
    {
      StepOk(View(), Dial(t, ok));
      if !ok {
        opens := opens[t := Failed(DialFailed)];
      } else {
        var slot := opens[t].slot;
        opens := opens[t := Holding(slot, |objs|)];
        objs := objs + [Stream(slot, Opener(t), false, false)];
      }
    }

    method FinishOpen(t: nat) returns (id: nat)
      requires Valid() && OpenOf(View(), t).Holding?
      modifies this
      ensures Valid() && View() == Next(old(View()), Store(t))
      ensures var slot := old(opens)[t].slot; slot in streams && id == streams[slot] < |objs| && objs[id].slot == slot
    {
      OpenReturnsTheEntry(View(), Store(t), t);
      StepOk(View(), Store(t));
      var slot, mine := opens[t].slot, opens[t].id;
      assert slot in streams ==> EntryOk(View(), slot);
      if slot in streams && !objs[streams[slot]].closed {
        objs := objs[mine := Closing(objs[mine])];
        id := streams[slot];
      } else {
        streams := streams[slot := mine];
        id := mine;
      }
      opens := opens[t := Opened(slot, id)];
    }

    method HandleIncomingStream(p: Peer, name: Name) returns (ok: bool)
      requires Valid()
      modifies this
      ensures Valid() && View() == Next(old(View()), Incoming(p, name))
      ensures ok <==> Allowed(old(View()), p, name) && !Live(old(View()), Slot(Encrypted, p, name))
    {
      StepOk(View(), Incoming(p, name));
      if p !in allowed || name !in allowed[p] { return false; }
      if p !in keys { return false; }
      ok := AcceptAt(Slot(Encrypted, p, name));
    }

    method HandleIncomingHandshakeStream(p: Peer) returns (ok: bool)
      requires Valid()
      modifies this
      ensures Valid() && View() == Next(old(View()), IncomingHandshake(p))
      ensures ok <==> !Live(old(View()), Slot(Plain, p, HANDSHAKE))
    {
      StepOk(View(), IncomingHandshake(p));
      ok := AcceptAt(Slot(Plain, p, HANDSHAKE));
    }

    method AcceptAt(slot: Slot) returns (ok: bool)
      requires Valid()
      modifies this`streams, this`objs
      ensures View() == Accept(old(View()), slot)
      ensures ok <==> !Live(old(View()), slot)
      ensures ok ==> HasEntry(View(), slot, |old(objs)|) && objs == old(objs) + [Stream(slot, Remote, false, false)]
    {
      assert slot in streams ==> EntryOk(View(), slot);
      if slot in streams && !objs[streams[slot]].closed { return false; }
      streams := streams[slot := |objs|];
      objs := objs + [Stream(slot, Remote, false, false)];
      return true;
    }

    method CloseHandshakeStream(p: Peer)
      requires Valid()
      modifies this
      ensures Valid() && View() == Next(old(View()), CloseHandshake(p))
      ensures Slot(Plain, p, HANDSHAKE) !in streams && |objs| == |old(objs)|
      ensures forall s :: s in streams <==> s in old(streams) && s != Slot(Plain, p, HANDSHAKE)
      ensures forall s :: s in streams ==> streams[s] == old(streams)[s]
      ensures var slot, was := Slot(Plain, p, HANDSHAKE), old(View());
        objs == if slot in was.streams then CloseAt(was.objs, was.streams[slot]) else was.objs
      ensures allowed == old(allowed) && keys == old(keys)
    {
      StepOk(View(), CloseHandshake(p));
      var slot := Slot(Plain, p, HANDSHAKE);
      assert slot in streams ==> EntryOk(View(), slot);
      if slot in streams {
        var id := streams[slot];
        objs := objs[id := Closing(objs[id])];
        streams := streams - {slot};
      }
    }

    /** Close the streams of the given entries one after the other. */
    method CloseEach(entries: map<Slot, nat>)
      requires forall s :: s in entries ==> entries[s] < |objs|
      modifies this`objs
      ensures objs == CloseAll(old(objs), entries.Values)
    {
      var todo := entries.Keys;
      while todo != {}
        invariant todo <= entries.Keys && |objs| == |old(objs)|
        invariant forall i :: 0 <= i < |objs| ==>
                    objs[i] == if exists s :: s in entries.Keys - todo && entries[s] == i
                               then Closing(old(objs[i])) else old(objs[i])
        decreases todo
      {
        var s :| s in todo;
        objs := objs[entries[s] := Closing(objs[entries[s]])];
        todo := todo - {s};
      }
    }

    method ClosePeer(p: Peer)
      requires Valid()
      modifies this
      ensures Valid() && View() == Next(old(View()), CloseStreams(p))
      ensures p !in allowed && p !in keys
      ensures forall q :: q != p ==> (q in allowed <==> q in old(allowed)) && (q in keys <==> q in old(keys))
      ensures forall q :: q in allowed ==> allowed[q] == old(allowed)[q]
      ensures forall s :: s in streams <==> s in old(streams) && s.peer != p
      ensures forall s :: s in old(streams) && s.peer == p && old(streams)[s] < |objs| ==> objs[old(streams)[s]].closed
    {
      StepOk(View(), CloseStreams(p));
      assert forall s :: s in streams ==> EntryOk(View(), s);
      ClosedUnder(objs, Of(streams, p));
      assert forall s :: s in streams && s.peer == p ==> s in Of(streams, p) && Of(streams, p)[s] == streams[s];
      CloseEach(Of(streams, p));
      streams := Without(streams, p);
      allowed := allowed - {p};
      keys := keys - {p};
    }

    method ShutdownAll()
      requires Valid()
      modifies this
      ensures Valid() && View() == Next(old(View()), Shutdown)
      ensures streams == map[] && allowed == map[] && keys == {} && |objs| == |old(objs)|
      ensures forall s :: s in old(streams) && old(streams)[s] < |objs| ==> objs[old(streams)[s]].closed
    {
      StepOk(View(), Shutdown);
      assert forall s :: s in streams ==> EntryOk(View(), s);
      CloseEach(streams);
      streams, allowed, keys := map[], map[], {};
    }
  }
}
