/** The event pipeline: the dispatcher's bounded queue
    (internal/eventdispatch/dispatcher.go), the forwarder to the application's channel and to
    every subscription, and the filter goroutines (node.go). All channels are bounded and
    drop the newest event when full. Events carry their emission number so that order can be
    told; `lost` remembers what a channel dropped and how full it was. */
module Events {
  import opened Runs
  import opened States

  type Peer = string

  datatype Event = Event(n: nat, peer: Peer, state: ConnState)

  datatype Filter = Filter(peers: seq<Peer>, states: seq<ConnState>)

  /** An empty list matches every value. */
  predicate Matches(f: Filter, e: Event) {
    (|f.peers| > 0 ==> e.peer in f.peers) && (|f.states| > 0 ==> e.state in f.states)
  }

  /** EventFilter.matches, with its two search loops. */
  method MatchesEvent(f: Filter, e: Event) returns (r: bool)
    ensures r <==> Matches(f, e)
    ensures r <==> (f.peers == [] || e.peer in f.peers) && (f.states == [] || e.state in f.states)
  {
    if |f.peers| > 0 {
      var found := false;
      for i := 0 to |f.peers|
        invariant !found && e.peer !in f.peers[..i]
      {
        if f.peers[i] == e.peer { found := true; break; }
      }
      if !found { return false; }
    }
    if |f.states| > 0 {
      var found := false;
      for i := 0 to |f.states|
        invariant !found && e.state !in f.states[..i]
      {
        if f.states[i] == e.state { found := true; break; }
      }
      if !found { return false; }
    }
    return true;
  }

  // ---- One bounded channel ----

  /** `buf` waits to be received, `out` has been. */
  datatype Chan = Chan(cap: nat, buf: seq<Event>, out: seq<Event>, lost: map<Event, nat>)

  function Empty(cap: nat): Chan { Chan(cap, [], [], map[]) }

  /** A non-blocking send. */
  function Push(c: Chan, e: Event): Chan {
    if |c.buf| < c.cap then c.(buf := c.buf + [e]) else c.(lost := c.lost[e := |c.buf|])
  }

  function Pop(c: Chan): Chan { if |c.buf| == 0 then c else c.(buf := c.buf[1..], out := c.out + [c.buf[0]]) }

  function Taken(c: Chan): seq<Event> { c.out + c.buf }

  ghost predicate Increasing(s: seq<Event>) { forall i, j :: 0 <= i < j < |s| ==> s[i].n < s[j].n }

  /** The channel has been offered exactly `up`: each offered event was accepted, in order,
      or dropped while the buffer was full, and not both. */
  ghost predicate Fits(c: Chan, up: seq<Event>) {
    && Increasing(up) && Increasing(Taken(c)) && |c.buf| <= c.cap
    && (forall e :: e in Taken(c) ==> e in up && e !in c.lost)
    && (forall e :: e in c.lost ==> e in up && c.lost[e] == c.cap)
    && (forall e :: e in up ==> e in Taken(c) || e in c.lost)
  }

  /** A full channel drops the newest event: what it has taken stays as it is. */
  lemma PushExactly(c: Chan, e: Event)
    ensures Push(c, e).cap == c.cap && Push(c, e).out == c.out
    ensures |c.buf| < c.cap ==> Push(c, e).buf == c.buf + [e] && Push(c, e).lost == c.lost
    ensures |c.buf| >= c.cap ==> Push(c, e).buf == c.buf && Push(c, e).lost == c.lost[e := |c.buf|]
  {}

  lemma PushFits(c: Chan, up: seq<Event>, e: Event)
    requires Fits(c, up) && Increasing(up + [e])
    ensures Fits(Push(c, e), up + [e])
  {
    assert (up + [e])[|up|] == e;
    assert forall x :: x in up ==> x.n < e.n by {
      forall x | x in up ensures x.n < e.n {
        var i :| 0 <= i < |up| && up[i] == x;
        assert (up + [e])[i] == x;
      }
    }
    assert Taken(c.(buf := c.buf + [e])) == Taken(c) + [e];
  }

  lemma PopFits(c: Chan, up: seq<Event>)
    requires Fits(c, up)
    ensures Fits(Pop(c), up) && Increasing(Pop(c).out)
    ensures Taken(Pop(c)) == Taken(c)
  {
    assert Taken(Pop(c)) == Taken(c);
    assert Pop(c).out == Taken(Pop(c))[..|Pop(c).out|];
  }

  // ---- The pipeline ----

  /** `since` is how much had been offered to subscriptions when this one was made. */
  datatype Sub = Sub(filter: Selection, since: nat, base: Chan, filtered: Chan)

  datatype Selection = All | Only(f: Filter)

  /** Where forwardEvents stands: waiting for an event, holding one, or holding one it has
      offered to the application's channel but not yet to the subscriptions. */
  datatype Stage = Waiting | Holding(e: Event) | Offered(e: Event)

  datatype Pipe = Pipe(emitted: seq<Event>, closed: bool, queue: Chan, stage: Stage, main: Chan, subs: map<nat, Sub>)

  datatype Label =
    | Emit(peer: Peer, state: ConnState)
    | CloseDispatcher
    | Take                                 // forwardEvents receives an event,
    | OfferMain                            // offers it to the application's channel,
    | OfferSubs                            // and to every subscription there is by then
    | Receive                              // the application reads Events()
    | Subscribe(s: nat, filter: Selection, cap: nat)
    | RunFilter(s: nat)                    // one round of the goroutine of FilteredEvents
    | ReceiveSub(s: nat)                   // the application reads a subscription

  function New(cap: nat): Pipe { Pipe([], false, Empty(cap), Waiting, Empty(cap), map[]) }

  /** What the owner of a subscription receives. */
  function Seen(sub: Sub): seq<Event> { if sub.filter.All? then sub.base.out else sub.filtered.out }

  function Filtered(sub: Sub): Sub {
    if sub.filter.All? || |sub.base.buf| == 0 then sub else
    var e := sub.base.buf[0];
    sub.(base := Pop(sub.base),
         filtered := if Matches(sub.filter.f, e) then Push(sub.filtered, e) else sub.filtered)
  }

  /** What has been offered to the application's channel so far, */
  function ToMain(p: Pipe): seq<Event> {
    if p.stage.Holding? && |p.queue.out| > 0 then p.queue.out[..|p.queue.out| - 1] else p.queue.out
  }

  /** and to the subscriptions. */
  function ToSubs(p: Pipe): seq<Event> {
    if !p.stage.Waiting? && |p.queue.out| > 0 then p.queue.out[..|p.queue.out| - 1] else p.queue.out
  }

  function Next(p: Pipe, l: Label): Pipe {
    match l
    case Emit(peer, state) =>
      if p.closed then p else
      var e := Event(|p.emitted|, peer, state);
      p.(emitted := p.emitted + [e], queue := Push(p.queue, e))
    case CloseDispatcher => p.(closed := true)
    case Take =>
      if !p.stage.Waiting? || |p.queue.buf| == 0 then p
      else p.(stage := Holding(p.queue.buf[0]), queue := Pop(p.queue))
    case OfferMain =>
      if p.stage.Holding? then p.(stage := Offered(p.stage.e), main := Push(p.main, p.stage.e)) else p
    case OfferSubs =>
      if !p.stage.Offered? then p
      else p.(stage := Waiting, subs := map s | s in p.subs :: p.subs[s].(base := Push(p.subs[s].base, p.stage.e)))
    case Receive => p.(main := Pop(p.main))
    case Subscribe(s, filter, cap) =>
      if s in p.subs then p
      else p.(subs := p.subs[s := Sub(filter, |ToSubs(p)|, Empty(cap), Empty(cap))])
    case RunFilter(s) => if s in p.subs then p.(subs := p.subs[s := Filtered(p.subs[s])]) else p
    case ReceiveSub(s) => if s in p.subs then p.(subs := p.subs[s := Read(p.subs[s])]) else p
  }

  /** The events of `s` that match, in order. */
  function Picked(f: Filter, s: seq<Event>): seq<Event>
    decreases |s|
  {
    if |s| == 0 then [] else
    Picked(f, s[..|s| - 1]) + (if Matches(f, s[|s| - 1]) then [s[|s| - 1]] else [])
  }

  ghost predicate SubOk(sub: Sub, forwarded: seq<Event>) {
    && sub.since <= |forwarded|
    && Fits(sub.base, forwarded[sub.since..])
    && (sub.filter.Only? ==> Fits(sub.filtered, Picked(sub.filter.f, sub.base.out)))
  }

  ghost predicate Ok(p: Pipe) {
    && (forall i :: 0 <= i < |p.emitted| ==> p.emitted[i].n == i)
    && Fits(p.queue, p.emitted)
    && (!p.stage.Waiting? ==> |p.queue.out| > 0 && p.queue.out[|p.queue.out| - 1] == p.stage.e)
    && Fits(p.main, ToMain(p))
    && (forall s :: s in p.subs ==> SubOk(p.subs[s], ToSubs(p)))
  }

  lemma {:induction false} PickedIn(f: Filter, s: seq<Event>)
    requires Increasing(s)
    ensures Increasing(Picked(f, s))
    ensures forall e :: e in Picked(f, s) <==> e in s && Matches(f, e)
    decreases |s|
  {
    if |s| > 0 {
      var init, e := s[..|s| - 1], s[|s| - 1];
      assert s == init + [e];
      PickedIn(f, init);
      forall x | x in Picked(f, init) ensures x.n < e.n {
        var i :| 0 <= i < |init| && init[i] == x;
        assert s[i] == x;
      }
    }
  }

  lemma FilterOk(sub: Sub, forwarded: seq<Event>)
    requires SubOk(sub, forwarded) && sub.filter.Only? && |sub.base.buf| > 0
    ensures SubOk(Filtered(sub), forwarded)
  {
    var f, e := sub.filter.f, sub.base.buf[0];
    PopFits(sub.base, forwarded[sub.since..]);
    var out := Pop(sub.base).out;
    assert out[..|out| - 1] == sub.base.out && out[|out| - 1] == e;
    var picked := Picked(f, sub.base.out);
    assert Picked(f, out) == if Matches(f, e) then picked + [e] else picked;
    PickedIn(f, out);
    if Matches(f, e) { PushFits(sub.filtered, picked, e); }
  }

  lemma TakeOk(p: Pipe)
    requires Ok(p) && p.stage.Waiting? && |p.queue.buf| > 0
    ensures Ok(Next(p, Take))
  {
    PopFits(p.queue, p.emitted);
    var n := Next(p, Take);
    assert n.queue.out == p.queue.out + [p.queue.buf[0]];
    assert ToMain(n) == p.queue.out && ToSubs(n) == p.queue.out;
  }

  lemma OfferMainOk(p: Pipe)
    requires Ok(p) && p.stage.Holding?
    ensures Ok(Next(p, OfferMain))
  {
    OutOf(p.queue, p.emitted);
    assert p.queue.out == ToMain(p) + [p.stage.e];
    PushFits(p.main, ToMain(p), p.stage.e);
  }

  lemma OfferOk(sub: Sub, forwarded: seq<Event>, e: Event)
    requires SubOk(sub, forwarded) && Increasing(forwarded + [e])
    ensures SubOk(sub.(base := Push(sub.base, e)), forwarded + [e])
  {
    assert (forwarded + [e])[sub.since..] == forwarded[sub.since..] + [e];
    SuffixIncreasing(forwarded + [e], sub.since);
    PushFits(sub.base, forwarded[sub.since..], e);
  }

  lemma OfferSubsOk(p: Pipe)
    requires Ok(p) && p.stage.Offered?
    ensures Ok(Next(p, OfferSubs))
  {
    var n, forwarded, e := Next(p, OfferSubs), ToSubs(p), p.stage.e;
    OutOf(p.queue, p.emitted);
    assert p.queue.out == forwarded + [e];
    assert ToSubs(n) == forwarded + [e] && ToMain(n) == ToMain(p);
    forall s | s in n.subs ensures SubOk(n.subs[s], ToSubs(n)) { OfferOk(p.subs[s], forwarded, e); }
  }

  lemma SuffixIncreasing(s: seq<Event>, k: nat)
    requires Increasing(s) && k <= |s|
    ensures Increasing(s[k..])
  {}

  /** Only subscription `s` changes. */
  lemma SetSubOk(p: Pipe, s: nat, sub: Sub)
    requires Ok(p) && SubOk(sub, ToSubs(p))
    ensures Ok(p.(subs := p.subs[s := sub]))
  {
    var n := p.(subs := p.subs[s := sub]);
    assert ToSubs(n) == ToSubs(p) && ToMain(n) == ToMain(p);
  }

  /** What the owner of a subscription does. */
  function Read(sub: Sub): Sub {
    if sub.filter.All? then sub.(base := Pop(sub.base)) else sub.(filtered := Pop(sub.filtered))
  }

  lemma ReadOk(sub: Sub, forwarded: seq<Event>)
    requires SubOk(sub, forwarded)
    ensures SubOk(Read(sub), forwarded)
  {
    PopFits(sub.base, forwarded[sub.since..]);
    if sub.filter.Only? { PopFits(sub.filtered, Picked(sub.filter.f, sub.base.out)); }
  }

  lemma NewSubOk(filter: Selection, cap: nat, forwarded: seq<Event>)
    ensures SubOk(Sub(filter, |forwarded|, Empty(cap), Empty(cap)), forwarded)
  {
    assert forwarded[|forwarded|..] == [];
  }

  lemma EmitOk(p: Pipe, peer: Peer, state: ConnState)
    requires Ok(p) && !p.closed
    ensures Ok(Next(p, Emit(peer, state)))
  {
    PushFits(p.queue, p.emitted, Event(|p.emitted|, peer, state));
    var n := Next(p, Emit(peer, state));
    assert n.queue.out == p.queue.out && ToMain(n) == ToMain(p) && ToSubs(n) == ToSubs(p);
  }

  lemma MainReadOk(p: Pipe)
    requires Ok(p)
    ensures Ok(Next(p, Receive))
  {
    PopFits(p.main, ToMain(p));
    assert ToMain(Next(p, Receive)) == ToMain(p) && ToSubs(Next(p, Receive)) == ToSubs(p);
  }

  lemma ForwarderOk(p: Pipe, l: Label)
    requires Ok(p) && (l.Take? || l.OfferMain? || l.OfferSubs?)
    ensures Ok(Next(p, l))
  {
    match l
    case Take => if p.stage.Waiting? && |p.queue.buf| > 0 { TakeOk(p); }
    case OfferMain => if p.stage.Holding? { OfferMainOk(p); }
    case OfferSubs => if p.stage.Offered? { OfferSubsOk(p); }
  }

  lemma SubscriberOk(p: Pipe, l: Label)
    requires Ok(p) && (l.Subscribe? || l.RunFilter? || l.ReceiveSub?)
    ensures Ok(Next(p, l))
  {
    match l
    case Subscribe(s, filter, cap) =>
      NewSubOk(filter, cap, ToSubs(p));
      SetSubOk(p, s, Sub(filter, |ToSubs(p)|, Empty(cap), Empty(cap)));
    case RunFilter(s) =>
      if s in p.subs {
        if p.subs[s].filter.Only? && |p.subs[s].base.buf| > 0 { FilterOk(p.subs[s], ToSubs(p)); }
        SetSubOk(p, s, Filtered(p.subs[s]));
      }
    case ReceiveSub(s) =>
      if s in p.subs {
        ReadOk(p.subs[s], ToSubs(p));
        SetSubOk(p, s, Read(p.subs[s]));
      }
  }

  lemma CloseOk(p: Pipe)
    requires Ok(p)
    ensures Ok(Next(p, CloseDispatcher))
  {
    assert ToMain(Next(p, CloseDispatcher)) == ToMain(p) && ToSubs(Next(p, CloseDispatcher)) == ToSubs(p);
  }

  lemma StepOk(p: Pipe, l: Label)
    requires Ok(p)
    ensures Ok(Next(p, l))
  {
    match l
    case Emit(peer, state) => if !p.closed { EmitOk(p, peer, state); } else { assert Next(p, l) == p; }
    case CloseDispatcher => CloseOk(p);
    case Receive => MainReadOk(p);
    case _ =>
      if l.Take? || l.OfferMain? || l.OfferSubs? { ForwarderOk(p, l); } else { SubscriberOk(p, l); }
  }

  lemma RunOk(cap: nat, run: seq<Label>)
    ensures Ok(Exec(Next, New(cap), run))
  {
    forall p, l | Ok(p) ensures Ok(Next(p, l)) { StepOk(p, l); }
    Invariant(Next, Ok, New(cap), run);
  }

  /** An emission by an open dispatcher is one more emitted event; nothing is emitted once it is
      closed, which it stays. */
  lemma EmittedExactly(p: Pipe, l: Label)
    ensures var n := Next(p, l);
      && n.emitted == (if l.Emit? && !p.closed then p.emitted + [Event(|p.emitted|, l.peer, l.state)] else p.emitted)
      && (n.closed <==> p.closed || l.CloseDispatcher?)
  {}

  // ---- What arrives ----

  /** `a` is what is left of `b` when some of its elements are dropped. */
  ghost predicate Subsequence(a: seq<Event>, b: seq<Event>)
    decreases |b|
  {
    |a| == 0 || (|b| > 0 &&
                 (Subsequence(a, b[..|b| - 1])
                  || (a[|a| - 1] == b[|b| - 1] && Subsequence(a[..|a| - 1], b[..|b| - 1]))))
  }

  lemma LastIsGreatest(a: seq<Event>)
    requires Increasing(a) && |a| > 0
    ensures Increasing(a[..|a| - 1])
    ensures forall e :: e in a <==> e in a[..|a| - 1] || e == a[|a| - 1]
    ensures forall e :: e in a[..|a| - 1] ==> e.n < a[|a| - 1].n
  {
    var init := a[..|a| - 1];
    assert a == init + [a[|a| - 1]];
    forall e | e in init ensures e.n < a[|a| - 1].n {
      var i :| 0 <= i < |init| && init[i] == e;
      assert a[i] == e;
    }
  }

  lemma {:induction false} IncreasingIsSubsequence(a: seq<Event>, b: seq<Event>)
    requires Increasing(a) && Increasing(b) && forall e :: e in a ==> e in b
    ensures Subsequence(a, b)
    decreases |b|
  {
    if |a| > 0 {
      assert a[0] in b;
      LastIsGreatest(a);
      LastIsGreatest(b);
      var a', b', x, y := a[..|a| - 1], b[..|b| - 1], a[|a| - 1], b[|b| - 1];
      assert x in a && x in b;
      if x == y {
        forall e | e in a' ensures e in b' { assert e in a && e in b; }
        IncreasingIsSubsequence(a', b');
      } else {
        forall e | e in a ensures e in b' { assert e in a' || e == x; assert e in b; }
        IncreasingIsSubsequence(a, b');
      }
    }
  }

  /** Order: in every run, what the application has received, and what each subscription
      has, is an in-order part of what was emitted; a filtered one holds only matching events
      of what was forwarded since it was made. */
  lemma ReceivedInOrder(cap: nat, run: seq<Label>, s: nat)
    ensures var p := Exec(Next, New(cap), run);
      && Subsequence(p.main.out, p.emitted)
      && (s in p.subs ==>
            && Subsequence(Seen(p.subs[s]), p.emitted)
            && (p.subs[s].filter.Only? ==> forall e :: e in Seen(p.subs[s]) ==> Matches(p.subs[s].filter.f, e)))
  {
    RunOk(cap, run);
    var p := Exec(Next, New(cap), run);
    OutOf(p.queue, p.emitted);
    OutOf(p.main, ToMain(p));
    IncreasingIsSubsequence(p.main.out, p.emitted);
    if s in p.subs {
      var sub := p.subs[s];
      assert SubOk(sub, ToSubs(p));
      OutOf(sub.base, ToSubs(p)[sub.since..]);
      if sub.filter.Only? {
        PickedIn(sub.filter.f, sub.base.out);
        OutOf(sub.filtered, Picked(sub.filter.f, sub.base.out));
      }
      IncreasingIsSubsequence(Seen(sub), p.emitted);
    }
  }

  lemma OutOf(c: Chan, up: seq<Event>)
    requires Fits(c, up)
    ensures Increasing(c.out) && forall e :: e in c.out ==> e in up
  {
    assert c.out == Taken(c)[..|c.out|];
  }

  predicate Begins(a: seq<Event>, b: seq<Event>) { |a| <= |b| && a == b[..|a|] }

  lemma TakenGrows(p: Pipe, l: Label)
    ensures var n := Next(p, l);
      Begins(Taken(p.queue), Taken(n.queue)) && Begins(Taken(p.main), Taken(n.main))
  {
    assert forall c: Chan, e :: Begins(Taken(c), Taken(Push(c, e))) by {
      forall c: Chan, e ensures Begins(Taken(c), Taken(Push(c, e))) {
        assert |c.buf| < c.cap ==> Taken(Push(c, e)) == Taken(c) + [e];
      }
    }
    assert forall c: Chan :: Taken(Pop(c)) == Taken(c) by {
      forall c: Chan ensures Taken(Pop(c)) == Taken(c) {
        if |c.buf| > 0 { assert c.buf == [c.buf[0]] + c.buf[1..]; }
      }
    }
  }

  /** What a channel has once taken it never loses: drops are of the newest event only, in every
      run and every continuation of it. */
  lemma {:induction false} AcceptedIsKept(cap: nat, run: seq<Label>, more: seq<Label>)
    ensures var p, n := Exec(Next, New(cap), run), Exec(Next, New(cap), run + more);
      Begins(Taken(p.queue), Taken(n.queue)) && Begins(Taken(p.main), Taken(n.main))
    decreases |more|
  {
    if |more| == 0 {
      assert run + more == run;
    } else {
      var init, l := more[..|more| - 1], more[|more| - 1];
      AcceptedIsKept(cap, run, init);
      assert run + more == (run + init) + [l];
      Then(Next, New(cap), run + init, l);
      TakenGrows(Exec(Next, New(cap), run + init), l);
    }
  }

  /** Every event is accounted for: an emitted event has reached the application, waits in
      one of the two buffers on its way, is in the forwarder's hands, or was dropped by one of
      the buffers when it was full. */
  lemma EveryEventAccounted(cap: nat, run: seq<Label>, e: Event)
    ensures var p := Exec(Next, New(cap), run);
      e in p.emitted ==>
        || e in p.main.out || e in p.main.buf || e in p.queue.buf || p.stage == Holding(e)
        || (e in p.queue.lost && p.queue.lost[e] == p.queue.cap)
        || (e in p.main.lost && p.main.lost[e] == p.main.cap)
  {
    RunOk(cap, run);
    var p := Exec(Next, New(cap), run);
    if p.stage.Holding? { assert p.queue.out == ToMain(p) + [p.stage.e]; }
  }

  /** The same for a subscription and the events that were offered to subscriptions since it
      was made, which include one that the forwarder had already taken from the queue when it
      was made: received, waiting, filtered out, or dropped by a full buffer of its own. */
  lemma SubscriptionAccounted(cap: nat, run: seq<Label>, s: nat, e: Event)
    ensures var p := Exec(Next, New(cap), run);
      s in p.subs && p.subs[s].since <= |ToSubs(p)| && e in ToSubs(p)[p.subs[s].since..] ==>
        var sub := p.subs[s];
        || e in Seen(sub) || e in sub.base.buf
        || (e in sub.base.lost && sub.base.lost[e] == sub.base.cap)
        || (sub.filter.Only? &&
            (!Matches(sub.filter.f, e) || e in sub.filtered.buf
             || (e in sub.filtered.lost && sub.filtered.lost[e] == sub.filtered.cap)))
  {
    RunOk(cap, run);
    var p := Exec(Next, New(cap), run);
    if s in p.subs {
      var sub := p.subs[s];
      assert SubOk(sub, ToSubs(p));
      OutOf(sub.base, ToSubs(p)[sub.since..]);
      if sub.filter.Only? { PickedIn(sub.filter.f, sub.base.out); }
    }
  }

  /** The dispatcher: a bounded channel and a closed flag under one mutex. */
  class Dispatcher {
    const cap: nat
    var buf: seq<Event>
    var closed: bool
    ghost var emitted: seq<Event>
    ghost var out: seq<Event>
    ghost var lost: map<Event, nat>
    ghost var closings: nat  // how often the channel has been closed

    ghost function Queue(): Chan
      reads this
    {
      Chan(cap, buf, out, lost)
    }

    constructor (cap: nat)
      ensures Queue() == Empty(cap) && emitted == [] && !closed && ClosedOnce()
    {
      this.cap, buf, closed := cap, [], false;
      emitted, out, lost, closings := [], [], map[], 0;
    }

    /** The channel is closed exactly when the flag is set, and never twice. */
    ghost predicate ClosedOnce()
      reads this
    {
      closings == if closed then 1 else 0
    }

    method EmitEvent(e: Event)
      requires Fits(Queue(), emitted) && e.n == |emitted|
      requires forall i :: 0 <= i < |emitted| ==> emitted[i].n == i
      modifies this
      ensures Fits(Queue(), emitted) && closed == old(closed)
      ensures if old(closed) then Queue() == old(Queue()) && emitted == old(emitted)
              else Queue() == Push(old(Queue()), e) && emitted == old(emitted) + [e]
      ensures closings == old(closings)
    {
      if closed { return; }
      PushFits(Queue(), emitted, e);
      emitted := emitted + [e];
      if |buf| < cap {
        buf := buf + [e];
      } else {
        lost := lost[e := |buf|];
      }
    }

    method Receive() returns (e: Event)
      requires Fits(Queue(), emitted) && |buf| > 0
      modifies this
      ensures Fits(Queue(), emitted) && Queue() == Pop(old(Queue())) && e == old(buf)[0]
      ensures emitted == old(emitted) && closed == old(closed) && closings == old(closings)
    {
      PopFits(Queue(), emitted);
      e := buf[0];
      out := out + [e];
      buf := buf[1..];
    }

    /** Safe to call any number of times. */
    method Close()
      requires ClosedOnce()
      modifies this`closed, this`closings
      ensures closed && closings == 1 && ClosedOnce()
    {
      if !closed {
        closed := true;
        closings := closings + 1;
      }
    }
  }
}
