/** Concurrent Node.SendCtx calls sharing one flow controller per stream name
    (node.go, SendCtx and getOrCreateFlowController). A label is one lock-held section,
    one channel wake-up, one context cancellation or one finished send of call `t`. */
module SendFlow {
  import opened Runs
  import opened Flow

  type Name = string

  datatype Phase =
    | Idle
    | Looking(name: Name)
    | Creating(name: Name)
    | Acquiring(name: Name, id: nat)
    | Waiting(name: Name, id: nat, ch: nat)
    | Sending(name: Name, id: nat)
    | Returned

  datatype Node = Node(high: int, low: int, table: map<Name, nat>, ctls: seq<Ctl>, calls: map<nat, Phase>)

  datatype Label =
    | Begin(t: nat, name: Name)
    | FastPath(t: nat)      // read-locked lookup
    | SlowPath(t: nat)      // write-locked double check, then create
    | Try(t: nat)           // lock-held part of Acquire
    | Wake(t: nat)          // the awaited channel is closed: retry
    | GiveUp(t: nat)        // the caller's context is done while waiting
    | Finish(t: nat)        // the send returns, with or without an error: deferred Release
    | Stray(id: nat)        // a Release that belongs to no call
    | Shut(id: nat)         // Controller.Close

  function PhaseOf(n: Node, t: nat): Phase { if t in n.calls then n.calls[t] else Idle }

  /** What a label does: it moves its call to a new phase, replaces the state of one
      controller, does both at once, or creates the controller of a name. */
  datatype Effect =
    | Stay
    | Move(p: Phase)
    | Set(id: nat, c: Ctl)
    | MoveAndSet(p: Phase, id: nat, c: Ctl)
    | Add(name: Name)

  function After(name: Name, id: nat, attempt: Attempt): Phase {
    match attempt
    case Granted => Sending(name, id)
    case Refused => Returned
    case Wait(ch) => Waiting(name, id, ch)
  }

  function EffectOf(n: Node, l: Label): Effect {
    if l.Stray? then (if l.id < |n.ctls| then Set(l.id, Released(n.ctls[l.id])) else Stay)
    else if l.Shut? then (if l.id < |n.ctls| then Set(l.id, Closed(n.ctls[l.id])) else Stay)
    else
      match (l, PhaseOf(n, l.t))
      case (Begin(_, name), Idle) => Move(Looking(name))
      case (FastPath(_), Looking(name)) =>
        if name in n.table then Move(Acquiring(name, n.table[name])) else Move(Creating(name))
      case (SlowPath(_), Creating(name)) =>
        if name in n.table then Move(Acquiring(name, n.table[name])) else Add(name)
      case (Try(_), Acquiring(name, id)) =>
        if id >= |n.ctls| then Stay else
        var (c, attempt) := Acquired(n.ctls[id]);
        MoveAndSet(After(name, id, attempt), id, c)
      case (Wake(_), Waiting(name, id, ch)) =>
        if id < |n.ctls| && ch in n.ctls[id].shut then Move(Acquiring(name, id)) else Stay
      case (GiveUp(_), Waiting(_, _, _)) => Move(Returned)
      case (Finish(_), Sending(name, id)) =>
        if id < |n.ctls| then MoveAndSet(Returned, id, Released(n.ctls[id])) else Stay
      case _ => Stay
  }

  function Step(n: Node, l: Label): Node {
    match EffectOf(n, l)
    case Stay => n
    case Move(p) => if l.Stray? || l.Shut? then n else n.(calls := n.calls[l.t := p])
    case Set(id, c) => if id < |n.ctls| then n.(ctls := n.ctls[id := c]) else n
    case MoveAndSet(p, id, c) =>
      if l.Stray? || l.Shut? || id >= |n.ctls| then n
      else n.(ctls := n.ctls[id := c], calls := n.calls[l.t := p])
    case Add(name) =>
      if l.Stray? || l.Shut? then n
      else n.(table := n.table[name := |n.ctls|], ctls := n.ctls + [Fresh(n.high, n.low)],
              calls := n.calls[l.t := Acquiring(name, |n.ctls|)])
  }

  function Start(high: int, low: int): Node { Node(high, low, map[], [], map[]) }

  /** Where each section takes its call, and that it takes no other. A call that is refused or
      gives up returns without a charge to any controller. */
  lemma CallsExactly(n: Node, t: nat)
    requires Inv(n)
    ensures var c := PhaseOf(n, t);
      && (c.Idle? ==> forall name :: PhaseOf(Step(n, Begin(t, name)), t) == Looking(name))
      && (c.Looking? && c.name !in n.table ==> PhaseOf(Step(n, FastPath(t)), t) == Creating(c.name))
      && (c.Looking? && c.name in n.table ==> PhaseOf(Step(n, FastPath(t)), t) == Acquiring(c.name, n.table[c.name]))
      && (c.Waiting? ==> PhaseOf(Step(n, GiveUp(t)), t) == Returned && Step(n, GiveUp(t)).ctls == n.ctls)
      && (c.Sending? && c.id < |n.ctls| ==> PhaseOf(Step(n, Finish(t)), t) == Returned)
      && (c.Acquiring? && c.id < |n.ctls| ==>
            var d, after := n.ctls[c.id], PhaseOf(Step(n, Try(t)), t);
            && (after == Sending(c.name, c.id) <==> !d.panicked && !d.closed && !d.blocked)
            && (after == Returned <==> d.panicked || d.closed)
            && (after == Waiting(c.name, c.id, d.ch) <==> !d.panicked && !d.closed && d.blocked)
            && (after.Sending? || Step(n, Try(t)).ctls == n.ctls))
  {}

  lemma OtherCallsKept(n: Node, l: Label, t: nat)
    requires l.Stray? || l.Shut? || l.t != t
    ensures PhaseOf(Step(n, l), t) == PhaseOf(n, t)
  {}

  // ---- No lost wake-up; one controller per name ----

  ghost predicate CallInv(n: Node, p: Phase) {
    match p
    case Acquiring(name, id) => name in n.table && n.table[name] == id
    case Sending(name, id) => name in n.table && n.table[name] == id
    case Waiting(name, id, ch) =>
      && name in n.table && n.table[name] == id && id < |n.ctls|
      && ch <= n.ctls[id].ch
      && (ch in n.ctls[id].shut || (ch == n.ctls[id].ch && n.ctls[id].blocked))
    case _ => true
  }

  ghost predicate Inv(n: Node) {
    && (forall name :: name in n.table ==> n.table[name] < |n.ctls|)
    && (forall a, b :: a in n.table && b in n.table && n.table[a] == n.table[b] ==> a == b)
    && (forall id :: 0 <= id < |n.ctls| ==> Flow.Inv(n.ctls[id]))
    && (forall t :: t in n.calls ==> CallInv(n, n.calls[t]))
  }

  /** A controller only moves on: closed channels stay closed, and the current channel is
      replaced only by closing it. */
  ghost predicate Advances(c: Ctl, d: Ctl) {
    && c.shut <= d.shut && c.ch <= d.ch && c.low == d.low && c.high == d.high
    && (c.blocked ==> c.ch in d.shut || (d.ch == c.ch && d.blocked))
  }

  lemma SectionsAdvance(c: Ctl)
    requires Flow.Inv(c)
    ensures Advances(c, Acquired(c).0) && Advances(c, Released(c)) && Advances(c, Closed(c))
    ensures Flow.Inv(Acquired(c).0) && Flow.Inv(Released(c)) && Flow.Inv(Closed(c))
    ensures Acquired(c).1.Wait? ==> c.blocked && Acquired(c) == (c, Wait(c.ch))
  {
    Flow.StepKeepsInv(c, Flow.Acquire);
    Flow.StepKeepsInv(c, Flow.Release);
    Flow.StepKeepsInv(c, Flow.Close);
  }

  /** What every step keeps of what was there before it. */
  ghost predicate Extends(n: Node, m: Node) {
    && |n.ctls| <= |m.ctls|
    && (forall id :: 0 <= id < |n.ctls| ==> Advances(n.ctls[id], m.ctls[id]))
    && (forall name :: name in n.table ==> name in m.table && m.table[name] == n.table[name])
  }

  /** Effects that keep the invariant. */
  ghost predicate Good(n: Node, e: Effect) {
    match e
    case Stay => true
    case Move(p) => CallInv(n, p)
    case Set(id, c) => id < |n.ctls| && Advances(n.ctls[id], c) && Flow.Inv(c)
    case MoveAndSet(p, id, c) =>
      && id < |n.ctls| && Advances(n.ctls[id], c) && Flow.Inv(c)
      && CallInv(n.(ctls := n.ctls[id := c]), p)
    case Add(name) => name !in n.table
  }

  lemma EffectsAreGood(n: Node, l: Label)
    requires Inv(n)
    ensures Good(n, EffectOf(n, l))
  {
    if l.Stray? || l.Shut? {
      if l.id < |n.ctls| { SectionsAdvance(n.ctls[l.id]); }
    } else {
      var p := PhaseOf(n, l.t);
      assert CallInv(n, p);
      if p.Acquiring? || p.Sending? { SectionsAdvance(n.ctls[p.id]); }
    }
  }

  lemma CallStays(n: Node, m: Node, p: Phase)
    requires Extends(n, m) && CallInv(n, p)
    ensures CallInv(m, p)
  {}

  lemma StepExtends(n: Node, l: Label)
    requires Inv(n) && Good(n, EffectOf(n, l))
    ensures Extends(n, Step(n, l))
  {}

  lemma CtlsKept(n: Node, l: Label)
    requires Inv(n) && Good(n, EffectOf(n, l)) && Flow.Inv(Fresh(n.high, n.low))
    ensures forall id :: 0 <= id < |Step(n, l).ctls| ==> Flow.Inv(Step(n, l).ctls[id])
  {}

  lemma StepKeeps(n: Node, l: Label)
    requires Inv(n)
    ensures Inv(Step(n, l)) && Extends(n, Step(n, l))
  {
    EffectsAreGood(n, l);
    Flow.FreshInv(n.high, n.low);
    var m := Step(n, l);
    StepExtends(n, l);
    CtlsKept(n, l);
    forall t | t in m.calls ensures CallInv(m, m.calls[t]) {
      if t in n.calls { CallStays(n, m, n.calls[t]); }
    }
  }

  lemma RunKeeps(n: Node, run: seq<Label>)
    requires Inv(n)
    ensures Inv(Exec(Step, n, run))
  {
    forall m, l | Inv(m) ensures Inv(Step(m, l)) { StepKeeps(m, l); }
    Invariant(Step, Inv, n, run);
  }

  /** A waiter whose channel is closed can always go on. */
  lemma ClosedChannelWakes(n: Node, t: nat)
    requires PhaseOf(n, t).Waiting? && PhaseOf(n, t).id < |n.ctls|
    requires PhaseOf(n, t).ch in n.ctls[PhaseOf(n, t).id].shut
    ensures PhaseOf(Step(n, Wake(t)), t) == Acquiring(PhaseOf(n, t).name, PhaseOf(n, t).id)
  {}

  /** No lost wake-up: in every run, of any number of calls, with stray releases and Close,
      a waiting call holds a closed channel, and is then enabled, or the current one, and
      then the controller is still blocked; so it is stuck only while the controller is. */
  lemma NoLostWakeup(high: int, low: int, run: seq<Label>, t: nat)
    ensures var n := Exec(Step, Start(high, low), run);
      PhaseOf(n, t).Waiting? ==>
        var w := PhaseOf(n, t);
        && w.id < |n.ctls|
        && (if w.ch in n.ctls[w.id].shut then PhaseOf(Step(n, Wake(t)), t) == Acquiring(w.name, w.id)
            else w.ch == n.ctls[w.id].ch && n.ctls[w.id].blocked)
  {
    RunKeeps(Start(high, low), run);
    var n := Exec(Step, Start(high, low), run);
    var w := PhaseOf(n, t);
    if w.Waiting? {
      assert CallInv(n, n.calls[t]);
      if w.ch in n.ctls[w.id].shut { ClosedChannelWakes(n, t); }
    }
  }

  /** A stream name keeps its one controller for the node's life, two names never share
      one, and every call on a name uses it. */
  lemma {:induction false} OneControllerPerName(n: Node, run: seq<Label>, name: Name)
    requires Inv(n) && name in n.table
    ensures var m := Exec(Step, n, run);
      && name in m.table && m.table[name] == n.table[name]
      && (forall other :: other in m.table && m.table[other] == m.table[name] ==> other == name)
      && (forall t :: t in m.calls && (m.calls[t].Waiting? || m.calls[t].Sending?) && m.calls[t].name == name
            ==> m.calls[t].id == n.table[name])
    decreases |run|
  {
    RunKeeps(n, run);
    var m := Exec(Step, n, run);
    if |run| > 0 {
      var init := run[..|run| - 1];
      OneControllerPerName(n, init, name);
      RunKeeps(n, init);
      StepKeeps(Exec(Step, n, init), run[|run| - 1]);
    }
    forall t | t in m.calls && (m.calls[t].Waiting? || m.calls[t].Sending?) && m.calls[t].name == name
      ensures m.calls[t].id == n.table[name]
    {
      assert CallInv(m, m.calls[t]);
    }
  }

  // ---- Conservation: pending is the number of sends in flight ----

  function Senders(n: Node, id: nat): set<nat> {
    set t | t in n.calls && n.calls[t].Sending? && n.calls[t].id == id
  }

  ghost predicate Conserved(n: Node) {
    && Inv(n)
    && (forall id: nat :: id < |n.ctls| ==>
          && n.ctls[id].pending == |Senders(n, id)| && !n.ctls[id].closed)
    && (forall t :: t in n.calls && n.calls[t].Sending? ==> n.calls[t].id < |n.ctls|)
  }

  /** The labels a node itself produces: it never calls Release on its own account, and
      never closes a controller. */
  predicate Own(l: Label) { !l.Stray? && !l.Shut? }

  lemma SendersAfter(n: Node, m: Node, t: nat, p: Phase, id: nat)
    requires m.calls == n.calls[t := p]
    ensures Senders(m, id) == if p.Sending? && p.id == id then Senders(n, id) + {t} else Senders(n, id) - {t}
  {}

  /** How much an effect adds to the pending count of controller `id`. */
  function Charge(n: Node, e: Effect, id: nat): int {
    if e.MoveAndSet? && e.id == id && id < |n.ctls| then e.c.pending - n.ctls[id].pending else 0
  }

  function Weight(p: Phase, id: nat): int { if p.Sending? && p.id == id then 1 else 0 }

  /** An effect charges a controller exactly for the sends it starts and ends. */
  lemma ChargedExactly(n: Node, l: Label, id: nat)
    requires Conserved(n) && Own(l) && id < |n.ctls|
    ensures var e := EffectOf(n, l);
      && !e.Set?
      && (e.MoveAndSet? ==> e.id < |n.ctls| && !e.c.closed)
      && Charge(n, e, id) ==
           (if e.Move? || e.MoveAndSet? then Weight(e.p, id) - Weight(PhaseOf(n, l.t), id) else 0)
      && (e.Add? ==> PhaseOf(n, l.t).Creating?)
  {
    var p := PhaseOf(n, l.t);
    assert CallInv(n, p);
    assert Flow.Inv(n.ctls[id]);
    if p.Sending? {
      assert p.id < |n.ctls|;
      assert l.t in Senders(n, p.id);
    }
    if p.Acquiring? && p.id < |n.ctls| { assert Flow.Inv(n.ctls[p.id]); }
  }

  lemma StepConservesAt(n: Node, l: Label, id: nat)
    requires Conserved(n) && Own(l) && id < |Step(n, l).ctls| && !EffectOf(n, l).Stay?
    ensures Step(n, l).ctls[id].pending == |Senders(Step(n, l), id)| && !Step(n, l).ctls[id].closed
  {
    var e, m := EffectOf(n, l), Step(n, l);
    if id < |n.ctls| { ChargedExactly(n, l, id); } else { assert Senders(n, id) == {}; }
    assert e.Set? ==> |n.ctls| == 0;
    assert m.calls == n.calls[l.t := m.calls[l.t]];
    SendersAfter(n, m, l.t, m.calls[l.t], id);
    assert l.t in Senders(n, id) <==> Weight(PhaseOf(n, l.t), id) == 1;
  }

  lemma StepConserves(n: Node, l: Label)
    requires Conserved(n) && Own(l)
    ensures Conserved(Step(n, l))
  {
    StepKeeps(n, l);
    var m := Step(n, l);
    if !EffectOf(n, l).Stay? {
      forall id: nat | id < |m.ctls| ensures m.ctls[id].pending == |Senders(m, id)| && !m.ctls[id].closed {
        StepConservesAt(n, l, id);
      }
    }
  }

  lemma {:induction false} RunConserves(n: Node, run: seq<Label>)
    requires Conserved(n) && forall l :: l in run ==> Own(l)
    ensures Conserved(Exec(Step, n, run))
    decreases |run|
  {
    if |run| > 0 {
      RunConserves(n, run[..|run| - 1]);
      StepConserves(Exec(Step, n, run[..|run| - 1]), run[|run| - 1]);
    }
  }

  /** The pending count is exactly the calls past Acquire and not yet released, over all
      peers; at most `high` of them at once; and a blocked controller always has as many
      of them as it needs released to unblock. */
  lemma SendConservation(high: int, low: int, run: seq<Label>, id: nat)
    requires forall l :: l in run ==> Own(l)
    ensures var n := Exec(Step, Start(high, low), run);
      id < |n.ctls| ==>
        && n.ctls[id].pending == |Senders(n, id)| <= n.ctls[id].high
        && (n.ctls[id].blocked ==> 1 <= Needed(n.ctls[id]) <= |Senders(n, id)|)
  {
    RunConserves(Start(high, low), run);
  }

  // ---- Progress ----

  /** Number of steps of the run that release controller `id`. */
  ghost function Releases(n: Node, run: seq<Label>, id: nat): nat
    decreases |run|
  {
    if |run| == 0 then 0 else
    var init, l := run[..|run| - 1], run[|run| - 1];
    var m := Exec(Step, n, init);
    Releases(n, init, id) +
    (if id < |m.ctls| && ReleasesNow(m, l, id) then 1 else 0)
  }

  lemma {:induction false} BlockedCountdown(n: Node, run: seq<Label>, id: nat)
    requires Inv(n) && id < |n.ctls| && n.ctls[id].blocked
    ensures var m := Exec(Step, n, run); var c := n.ctls[id];
      && id < |m.ctls|
      && (c.ch in m.ctls[id].shut ||
          (m.ctls[id].blocked && m.ctls[id].ch == c.ch && m.ctls[id].low == c.low
           && m.ctls[id].pending == c.pending - Releases(n, run, id)
           && Releases(n, run, id) < Needed(c)))
    decreases |run|
  {
    if |run| > 0 {
      var init, l := run[..|run| - 1], run[|run| - 1];
      BlockedCountdown(n, init, id);
      RunKeeps(n, init);
      var m := Exec(Step, n, init);
      StepKeeps(m, l);
      if n.ctls[id].ch !in m.ctls[id].shut { OneCount(m, l, id); }
    }
  }

  predicate ReleasesNow(n: Node, l: Label, id: nat) {
    l == Stray(id) || (l.Finish? && PhaseOf(n, l.t).Sending? && PhaseOf(n, l.t).id == id)
  }

  lemma OneCount(n: Node, l: Label, id: nat)
    requires Inv(n) && id < |n.ctls| && n.ctls[id].blocked
    ensures var c, m := n.ctls[id], Step(n, l);
      && id < |m.ctls|
      && (c.ch in m.ctls[id].shut ||
          (m.ctls[id].blocked && m.ctls[id].ch == c.ch && m.ctls[id].low == c.low
           && m.ctls[id].pending == c.pending - (if ReleasesNow(n, l, id) then 1 else 0)
           && (ReleasesNow(n, l, id) ==> c.pending - 1 > c.low)))
  {
    assert Flow.Inv(n.ctls[id]);
    if !l.Stray? && !l.Shut? { assert CallInv(n, PhaseOf(n, l.t)); }
  }

  /** Once enough releases have happened since a call began to wait, that call is enabled,
      whatever else happened in between; and it stays enabled. */
  lemma WaitersAreFreed(n: Node, run: seq<Label>, t: nat)
    requires Inv(n) && t in n.calls && n.calls[t].Waiting?
    requires var w := n.calls[t];
      w.ch !in n.ctls[w.id].shut ==> Releases(n, run, w.id) >= Needed(n.ctls[w.id])
    ensures var m := Exec(Step, n, run); var w := n.calls[t];
      && w.id < |m.ctls| && w.ch in m.ctls[w.id].shut
      && (PhaseOf(m, t) == w ==> PhaseOf(Step(m, Wake(t)), t) == Acquiring(w.name, w.id))
  {
    var w := n.calls[t];
    assert CallInv(n, w);
    if w.ch in n.ctls[w.id].shut {
      ShutForever(n, run, w.id, w.ch);
    } else {
      BlockedCountdown(n, run, w.id);
    }
    var m := Exec(Step, n, run);
    if PhaseOf(m, t) == w { ClosedChannelWakes(m, t); }
  }

  lemma {:induction false} ShutForever(n: Node, run: seq<Label>, id: nat, ch: nat)
    requires Inv(n) && id < |n.ctls| && ch in n.ctls[id].shut
    ensures id < |Exec(Step, n, run).ctls| && ch in Exec(Step, n, run).ctls[id].shut
    decreases |run|
  {
    if |run| > 0 {
      var init := run[..|run| - 1];
      ShutForever(n, init, id, ch);
      RunKeeps(n, init);
      StepKeeps(Exec(Step, n, init), run[|run| - 1]);
    }
  }

  // ---- The object ----

  lemma FastStep(n: Node, t: nat, name: Name)
    requires PhaseOf(n, t) == Looking(name)
    ensures Step(n, FastPath(t)) ==
            n.(calls := n.calls[t := if name in n.table then Acquiring(name, n.table[name]) else Creating(name)])
  {}

  lemma SlowStep(n: Node, t: nat, name: Name)
    requires PhaseOf(n, t) == Creating(name)
    ensures Step(n, SlowPath(t)) ==
            if name in n.table then n.(calls := n.calls[t := Acquiring(name, n.table[name])])
            else Node(n.high, n.low, n.table[name := |n.ctls|], n.ctls + [Fresh(n.high, n.low)],
                      n.calls[t := Acquiring(name, |n.ctls|)])
  {}

  lemma TryStep(n: Node, t: nat, name: Name, id: nat)
    requires PhaseOf(n, t) == Acquiring(name, id) && id < |n.ctls|
    ensures Step(n, Try(t)) == n.(ctls := n.ctls[id := Acquired(n.ctls[id]).0],
                                  calls := n.calls[t := After(name, id, Acquired(n.ctls[id]).1)])
  {}

  lemma FinishStep(n: Node, t: nat, name: Name, id: nat)
    requires PhaseOf(n, t) == Sending(name, id) && id < |n.ctls|
    ensures Step(n, Finish(t)) == n.(ctls := n.ctls[id := Released(n.ctls[id])], calls := n.calls[t := Returned])
  {}

  /** A call in these phases has a controller, and releasing it never closes a closed channel. */
  lemma HasController(n: Node, t: nat)
    requires Conserved(n) && t in n.calls && (n.calls[t].Acquiring? || n.calls[t].Sending?)
    ensures n.calls[t].id < |n.ctls| && !Released(n.ctls[n.calls[t].id]).panicked
  {
    assert CallInv(n, n.calls[t]);
    assert Flow.Inv(n.ctls[n.calls[t].id]) && !n.ctls[n.calls[t].id].closed;
  }

  ghost function ViewsOf(cs: seq<Controller>): (v: seq<Ctl>)
    reads cs
    ensures |v| == |cs| && forall i :: 0 <= i < |v| ==> v[i] == cs[i].View()
  {
    if |cs| == 0 then [] else ViewsOf(cs[..|cs| - 1]) + [cs[|cs| - 1].View()]
  }

  ghost predicate Distinct(cs: seq<Controller>) { forall i, j :: 0 <= i < j < |cs| ==> cs[i] != cs[j] }

  /** The sends of a node: the table of controllers, which are objects of module Flow, and the
      calls in progress. A method is one lock-held section of SendCtx, for call `t`. */
  class Sends {
    const high: int
    const low: int
    var table: map<Name, nat>
    var ctls: seq<Controller>
    var calls: map<nat, Phase>

    ghost function View(): Node
      reads this, ctls
    {
      Node(high, low, table, ViewsOf(ctls), calls)
    }

    /** No two names share a controller object, and the pending counts are conserved. */
    ghost predicate Valid()
      reads this, ctls
    {
      Distinct(ctls) && Conserved(View())
    }

    constructor (high: int, low: int)
      ensures Valid() && View() == Start(high, low)
    {
      this.high, this.low, table, ctls, calls := high, low, map[], [], map[];
    }

    /** The read-locked lookup of getOrCreateFlowController. */
    method LookUp(t: nat, name: Name) returns (found: bool)
      requires Valid() && t in calls && calls[t] == Looking(name)
      modifies this`calls
      ensures Valid() && View() == Step(old(View()), FastPath(t))
      ensures found <==> name in table
      ensures calls[t] == if found then Acquiring(name, table[name]) else Creating(name)
    {
      ghost var n := View();
      FastStep(n, t, name);
      found := name in table;
      calls := calls[t := if found then Acquiring(name, table[name]) else Creating(name)];
      assert View() == Step(n, FastPath(t));
      StepConserves(n, FastPath(t));
    }

    method AddController(name: Name)
      requires Distinct(ctls)
      modifies this`table, this`ctls
      ensures Distinct(ctls) && table == old(table)[name := |old(ctls)|]
      ensures ViewsOf(ctls) == old(ViewsOf(ctls)) + [Fresh(high, low)]
    {
      var ctl := new Controller(high, low);
      table := table[name := |ctls|];
      ctls := ctls + [ctl];
      assert ctls[..|ctls| - 1] == old(ctls);
    }

    /** The write-locked double check and creation. */
    method Create(t: nat, name: Name)
      requires Valid() && t in calls && calls[t] == Creating(name)
      modifies this
      ensures Valid() && View() == Step(old(View()), SlowPath(t))
      ensures name in table && calls[t] == Acquiring(name, table[name])
    {
      ghost var n := View();
      SlowStep(n, t, name);
      if name !in table { AddController(name); }
      calls := calls[t := Acquiring(name, table[name])];
      assert View() == Step(n, SlowPath(t));
      StepConserves(n, SlowPath(t));
    }

    /** getOrCreateFlowController without interruption: the two sections in a row. The
        controller found or made is the one of the name from now on. */
    method GetOrCreateFlowController(t: nat, name: Name) returns (id: nat)
      requires Valid() && t in calls && calls[t] == Looking(name)
      modifies this
      ensures Valid()
      ensures View() == (var n := Step(old(View()), FastPath(t));
                         if name in old(table) then n else Step(n, SlowPath(t)))
      ensures name in table && id == table[name] && calls[t] == Acquiring(name, id)
    {
      var found := LookUp(t, name);
      if !found { Create(t, name); }
      id := table[name];
    }

    /** The lock-held part of Acquire, on the call's controller. */
    method TryAcquire(t: nat) returns (granted: bool)
      requires Valid() && t in calls && calls[t].Acquiring?
      modifies this`calls, ctls
      ensures Valid() && View() == Step(old(View()), Try(t)) && (granted <==> t in calls && calls[t].Sending?)
    {
      ghost var n := View();
      var name, id := calls[t].name, calls[t].id;
      HasController(n, t);
      var attempt := ctls[id].TryAcquire();
      assert ViewsOf(ctls) == n.ctls[id := Acquired(n.ctls[id]).0];
      calls := calls[t := After(name, id, attempt)];
      granted := attempt.Granted?;
      TryStep(n, t, name, id);
      assert View() == Step(n, Try(t));
      StepConserves(n, Try(t));
    }

    /** The deferred Release of SendCtx. It never closes a closed channel. */
    method FinishSend(t: nat)
      requires Valid() && t in calls && calls[t].Sending?
      modifies this`calls, ctls
      ensures Valid() && View() == Step(old(View()), Finish(t))
    {
      ghost var n := View();
      var name, id := calls[t].name, calls[t].id;
      HasController(n, t);
      ctls[id].Release();
      assert ViewsOf(ctls) == n.ctls[id := Released(n.ctls[id])];
      calls := calls[t := Returned];
      FinishStep(n, t, name, id);
      assert View() == Step(n, Finish(t));
      StepConserves(n, Finish(t));
    }
  }
}
