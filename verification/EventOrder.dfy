/** The order in which the connection manager's events come out. A section changes a peer's
    state under the lock and emits its event after unlocking, so events may overtake each
    other; this says exactly when. */
module EventOrder {
  import opened Runs
  import opened States
  import opened Connections

  // ---- Ledgers ----

  /** What has been emitted, what is pending, and what the sections have owed, in the order
      of the sections. */
  datatype Ledger = Ledger(emitted: seq<Event>, pending: multiset<Event>, owed: seq<Event>)

  ghost predicate Balanced(g: Ledger) { multiset(g.owed) == multiset(g.emitted) + g.pending }

  function Emitting(g: Ledger, e: Event): Ledger {
    g.(emitted := g.emitted + [e], pending := g.pending - multiset{e})
  }

  function Owing(g: Ledger, es: seq<Event>): Ledger {
    g.(pending := g.pending + multiset(es), owed := g.owed + es)
  }

  /** The events of `p`, in order. */
  function Of(es: seq<Event>, p: Peer): seq<Event>
    decreases |es|
  {
    if |es| == 0 then []
    else Of(es[..|es| - 1], p) + (if es[|es| - 1].peer == p then [es[|es| - 1]] else [])
  }

  predicate IsPrefix(a: seq<Event>, b: seq<Event>) { |a| <= |b| && a == b[..|a|] }

  /** What has been emitted for `p` is a beginning of what was owed for `p`. */
  predicate Orderly(g: Ledger, p: Peer) { IsPrefix(Of(g.emitted, p), Of(g.owed, p)) }

  predicate IsPending(g: Ledger, p: Peer, e: Event) { e in g.pending && e.peer == p }

  /** At most one distinct event of `p` is pending. */
  ghost predicate OneKind(g: Ledger, p: Peer) {
    forall e, f :: IsPending(g, p, e) && IsPending(g, p, f) ==> e == f
  }

  lemma {:induction false} OfPlus(a: seq<Event>, b: seq<Event>, p: Peer)
    ensures Of(a + b, p) == Of(a, p) + Of(b, p)
    decreases |b|
  {
    if |b| == 0 {
      assert a + b == a;
    } else {
      assert (a + b)[..|a + b| - 1] == a + b[..|b| - 1];
      OfPlus(a, b[..|b| - 1], p);
    }
  }

  lemma {:induction false} OfCounts(es: seq<Event>, p: Peer, e: Event)
    ensures multiset(Of(es, p))[e] == if e.peer == p then multiset(es)[e] else 0
    decreases |es|
  {
    if |es| > 0 {
      assert es == es[..|es| - 1] + [es[|es| - 1]];
      OfCounts(es[..|es| - 1], p, e);
    }
  }

  lemma RestCounts(a: seq<Event>, b: seq<Event>, e: Event)
    requires IsPrefix(a, b)
    ensures multiset(b)[e] == multiset(a)[e] + multiset(b[|a|..])[e]
  {
    assert b == a + b[|a|..];
  }

  /** In order, the events of `p` owed and not emitted are those of `p` that are pending. */
  lemma RestIsPending(g: Ledger, p: Peer, e: Event)
    requires Balanced(g) && Orderly(g, p)
    ensures multiset(Of(g.owed, p)[|Of(g.emitted, p)|..])[e] == if e.peer == p then g.pending[e] else 0
  {
    OfCounts(g.emitted, p, e);
    OfCounts(g.owed, p, e);
    RestCounts(Of(g.emitted, p), Of(g.owed, p), e);
  }

  /** Whether anything of `p` is pending shows in the lengths. */
  lemma PendingShows(g: Ledger, p: Peer)
    requires Balanced(g) && Orderly(g, p)
    ensures |Of(g.emitted, p)| == |Of(g.owed, p)| <==> forall e :: !IsPending(g, p, e)
    ensures var a, b := Of(g.emitted, p), Of(g.owed, p); |a| < |b| ==> IsPending(g, p, b[|a|])
  {
    var a, b := Of(g.emitted, p), Of(g.owed, p);
    var rest := b[|a|..];
    if rest == [] {
      forall e ensures !IsPending(g, p, e) { RestIsPending(g, p, e); }
    } else {
      RestIsPending(g, p, rest[0]);
      assert rest[0] in rest && rest[0] == b[|a|];
      assert IsPending(g, p, rest[0]);
    }
  }

  /** The next event of `p` in order is the one that may be emitted. */
  lemma NextInOrder(g: Ledger, p: Peer, e: Event)
    requires Balanced(g) && Orderly(g, p) && IsPending(g, p, e)
    ensures var a, b := Of(g.emitted, p), Of(g.owed, p);
      |a| < |b| && IsPending(g, p, b[|a|]) && (Orderly(Emitting(g, e), p) <==> b[|a|] == e)
  {
    var a, b := Of(g.emitted, p), Of(g.owed, p);
    PendingShows(g, p);
    OfPlus(g.emitted, [e], p);
    assert Of([e], p) == [e] by { assert [e][..0] == []; }
    assert b[..|a| + 1] == b[..|a|] + [b[|a|]];
  }

  lemma LedgerInOrderExactly(g: Ledger, p: Peer)
    requires Balanced(g) && Orderly(g, p)
    ensures (forall e :: IsPending(g, p, e) ==> Orderly(Emitting(g, e), p)) <==> OneKind(g, p)
  {
    var a, b := Of(g.emitted, p), Of(g.owed, p);
    forall e | IsPending(g, p, e)
      ensures |a| < |b| && IsPending(g, p, b[|a|]) && (Orderly(Emitting(g, e), p) <==> b[|a|] == e)
    {
      NextInOrder(g, p, e);
    }
  }

  /** Emitting one of a single kind, or an event of another peer, keeps the order. */
  lemma EmittingStays(g: Ledger, p: Peer, e: Event)
    requires Balanced(g) && Orderly(g, p) && OneKind(g, p) && e in g.pending
    ensures Orderly(Emitting(g, e), p) && OneKind(Emitting(g, e), p)
  {
    var n := Emitting(g, e);
    if e.peer == p {
      LedgerInOrderExactly(g, p);
      assert IsPending(g, p, e);
    } else {
      OfPlus(g.emitted, [e], p);
      assert Of([e], p) == [] by { assert [e][..0] == []; }
    }
    assert forall f :: IsPending(n, p, f) ==> IsPending(g, p, f);
  }

  /** Owing keeps the order; and a first event of `p`, or events of others, leave one kind. */
  lemma OwingStays(g: Ledger, p: Peer, es: seq<Event>)
    requires Balanced(g) && Orderly(g, p) && OneKind(g, p) && |es| <= 1
    requires Of(es, p) == [] || forall e :: !IsPending(g, p, e)
    ensures Orderly(Owing(g, es), p) && OneKind(Owing(g, es), p)
  {
    var n := Owing(g, es);
    OfPlus(g.owed, es, p);
    forall e ensures IsPending(n, p, e) ==> IsPending(g, p, e) || (e in es && Of(es, p) != []) {
      OfCounts(es, p, e);
    }
  }

  lemma FewerEmitted(g: Ledger, p: Peer)
    requires Balanced(g)
    ensures |Of(g.emitted, p)| <= |Of(g.owed, p)|
  {
    var a, b := Of(g.emitted, p), Of(g.owed, p);
    forall e ensures multiset(a)[e] <= multiset(b)[e] {
      OfCounts(g.emitted, p, e);
      OfCounts(g.owed, p, e);
    }
    assert |multiset(b) - multiset(a)| == |multiset(b)| - |multiset(a)|;
  }

  lemma PrefixDown(a: seq<Event>, b: seq<Event>, c: seq<Event>, d: seq<Event>)
    requires IsPrefix(a, c) && IsPrefix(b, d) && IsPrefix(c, d) && |a| <= |b|
    ensures IsPrefix(a, b)
  {
    assert forall i :: 0 <= i < |a| ==> a[i] == c[i] == d[i] == b[i];
  }

  /** `h` has all that `g` has, and more at the ends. */
  lemma NotMended(g: Ledger, h: Ledger, p: Peer)
    requires Balanced(g) && !Orderly(g, p)
    requires IsPrefix(Of(g.emitted, p), Of(h.emitted, p)) && IsPrefix(Of(g.owed, p), Of(h.owed, p))
    ensures !Orderly(h, p)
  {
    FewerEmitted(g, p);
    if Orderly(h, p) { PrefixDown(Of(g.emitted, p), Of(g.owed, p), Of(h.emitted, p), Of(h.owed, p)); }
  }

  // ---- Runs ----

  /** The events the sections of a run have owed. */
  function Owed(m: Mgr, run: seq<Label>): seq<Event>
    decreases |run|
  {
    if |run| == 0 then []
    else Owed(m, run[..|run| - 1]) + OwedBy(Exec(Next, m, run[..|run| - 1]), run[|run| - 1])
  }

  function LedgerOf(s: Mgr, run: seq<Label>): Ledger {
    Ledger(Exec(Next, s, run).events, Exec(Next, s, run).pending, Owed(s, run))
  }

  lemma LedgerStep(s: Mgr, run: seq<Label>, l: Label)
    ensures var g, m := LedgerOf(s, run), Exec(Next, s, run);
      LedgerOf(s, run + [l]) == if Emits(m, l) then Emitting(g, l.e) else Owing(g, OwedBy(m, l))
  {
    assert (run + [l])[..|run|] == run;
    if l.Emit? { assert OwedBy(Exec(Next, s, run), l) == []; }
  }

  ghost predicate BalancedAfter(s: Mgr, run: seq<Label>) { Balanced(LedgerOf(s, run)) }

  lemma StaysBalanced(s: Mgr, run: seq<Label>, l: Label)
    ensures Balanced(LedgerOf(s, run)) ==> Balanced(LedgerOf(s, run + [l]))
  {
    var g, m := LedgerOf(s, run), Exec(Next, s, run);
    LedgerStep(s, run, l);
    if Balanced(g) {
      if Emits(m, l) { assert Balanced(Emitting(g, l.e)); } else { assert Balanced(Owing(g, OwedBy(m, l))); }
    }
  }

  /** Everything owed has been emitted or is pending, and nothing else. */
  lemma LedgerBalanced(s: Mgr, run: seq<Label>)
    requires s.events == [] && s.pending == multiset{}
    ensures Balanced(LedgerOf(s, run))
  {
    forall r, l | BalancedAfter(s, r) ensures BalancedAfter(s, r + [l]) { StaysBalanced(s, r, l); }
    assert LedgerOf(s, []) == Ledger([], multiset{}, []);
    Always(r => BalancedAfter(s, r), run);
  }

  /** After the run the events of `p` have come out in the order of its sections. */
  predicate InOrder(s: Mgr, run: seq<Label>, p: Peer) { Orderly(LedgerOf(s, run), p) }

  lemma InOrderAfterEmit(s: Mgr, run: seq<Label>, p: Peer, e: Event)
    requires e in LedgerOf(s, run).pending
    ensures InOrder(s, run + [Emit(e)], p) <==> Orderly(Emitting(LedgerOf(s, run), e), p)
  {
    LedgerStep(s, run, Emit(e));
  }

  /** The exact condition, in every run from a new manager after which the events of `p` have
      come out in order so far: whichever pending event of `p` is emitted next, they still do,
      if and only if at most one distinct event of `p` is pending. */
  lemma InOrderExactly(maxAttempts: int, run: seq<Label>, p: Peer)
    requires InOrder(New(maxAttempts), run, p)
    ensures var s := New(maxAttempts);
      (forall e :: IsPending(LedgerOf(s, run), p, e) ==> InOrder(s, run + [Emit(e)], p))
      <==> OneKind(LedgerOf(s, run), p)
  {
    var s := New(maxAttempts);
    LedgerBalanced(s, run);
    LedgerInOrderExactly(LedgerOf(s, run), p);
    forall e | IsPending(LedgerOf(s, run), p, e)
      ensures InOrder(s, run + [Emit(e)], p) <==> Orderly(Emitting(LedgerOf(s, run), e), p)
    {
      InOrderAfterEmit(s, run, p, e);
    }
  }

  /** A step only adds to what has been owed and emitted. */
  lemma OnlyAdds(s: Mgr, run: seq<Label>, l: Label, p: Peer)
    ensures var g, h := LedgerOf(s, run), LedgerOf(s, run + [l]);
      IsPrefix(Of(g.emitted, p), Of(h.emitted, p)) && IsPrefix(Of(g.owed, p), Of(h.owed, p))
  {
    var m := Exec(Next, s, run);
    LedgerStep(s, run, l);
    OfPlus(Owed(s, run), OwedBy(m, l), p);
    if Emits(m, l) { OfPlus(m.events, [l.e], p); }
  }

  lemma StepNotMended(s: Mgr, run: seq<Label>, l: Label, p: Peer)
    requires s.events == [] && s.pending == multiset{}
    ensures !InOrder(s, run, p) ==> !InOrder(s, run + [l], p)
  {
    LedgerBalanced(s, run);
    OnlyAdds(s, run, l, p);
    if !InOrder(s, run, p) { NotMended(LedgerOf(s, run), LedgerOf(s, run + [l]), p); }
  }

  /** Events that have come out of order stay so. */
  lemma NeverMended(maxAttempts: int, run: seq<Label>, more: seq<Label>, p: Peer)
    requires !InOrder(New(maxAttempts), run, p)
    ensures !InOrder(New(maxAttempts), run + more, p)
  {
    var s := New(maxAttempts);
    forall r, l | !InOrder(s, r, p) ensures !InOrder(s, r + [l], p) { StepNotMended(s, r, l, p); }
    Along(r => !InOrder(s, r, p), run, more);
  }

  /** The label owes no event of `p`, or none of `p` is pending. */
  predicate Clear(m: Mgr, l: Label, p: Peer) {
    Of(OwedBy(m, l), p) == [] || forall e :: e in m.pending ==> e.peer != p
  }

  /** No section of the run that owes an event of `p` falls into a moment at which another
      event of `p` is pending: its calls wait for each other's events. */
  predicate Apart(s: Mgr, run: seq<Label>, p: Peer)
    decreases |run|
  {
    |run| == 0 ||
    var init, l := run[..|run| - 1], run[|run| - 1];
    Apart(s, init, p) && Clear(Exec(Next, s, init), l, p)
  }

  lemma OwesAtMostOne(m: Mgr, l: Label)
    ensures |OwedBy(m, l)| <= 1
  {}

  /** The ledger is balanced, in order, and of one kind for `p`. */
  ghost predicate Fine(s: Mgr, run: seq<Label>, p: Peer) {
    Balanced(LedgerOf(s, run)) && InOrder(s, run, p) && OneKind(LedgerOf(s, run), p)
  }

  lemma StepStays(s: Mgr, run: seq<Label>, l: Label, p: Peer)
    ensures Fine(s, run, p) && Clear(Exec(Next, s, run), l, p) ==> Fine(s, run + [l], p)
  {
    var m, g := Exec(Next, s, run), LedgerOf(s, run);
    LedgerStep(s, run, l);
    OwesAtMostOne(m, l);
    if Fine(s, run, p) && Clear(m, l, p) {
      if Emits(m, l) { EmittingStays(g, p, l.e); } else { OwingStays(g, p, OwedBy(m, l)); }
    }
  }

  lemma ApartEnds(s: Mgr, run: seq<Label>, l: Label, p: Peer)
    ensures Apart(s, run + [l], p) ==> Apart(s, run, p) && Clear(Exec(Next, s, run), l, p)
  {
    assert (run + [l])[..|run|] == run;
  }

  lemma ApartIsFine(s: Mgr, run: seq<Label>, p: Peer)
    requires s.events == [] && s.pending == multiset{} && Apart(s, run, p)
    ensures Fine(s, run, p)
  {
    forall r, l | Apart(s, r, p) ==> Fine(s, r, p) ensures Apart(s, r + [l], p) ==> Fine(s, r + [l], p) {
      if Apart(s, r + [l], p) {
        ApartEnds(s, r, l, p);
        StepStays(s, r, l, p);
      }
    }
    assert LedgerOf(s, []) == Ledger([], multiset{}, []);
    Always(r => Apart(s, r, p) ==> Fine(s, r, p), run);
  }

  /** The condition over whole runs, which callers can keep: then the events of `p` come out
      in the order of its sections, in every state of the run. */
  lemma ApartMeansInOrder(maxAttempts: int, run: seq<Label>, p: Peer)
    requires Apart(New(maxAttempts), run, p)
    ensures InOrder(New(maxAttempts), run, p) && OneKind(LedgerOf(New(maxAttempts), run), p)
  {
    ApartIsFine(New(maxAttempts), run, p);
  }
}
