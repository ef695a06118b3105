/** The watermark flow controller (internal/flow/controller.go).

    Channels are numbered generations: `ch` is the channel stored in the controller,
    `shut` the channels closed so far. Closing a closed channel is a Go panic, recorded
    in `panicked`; a panicked process takes no further step. */
module Flow {
  import opened Basics
  import opened Runs

  const DEFAULT_HIGH := 1000
  const DEFAULT_LOW := 100

  datatype Ctl = Ctl(high: int, low: int, pending: int, blocked: bool, closed: bool,
                     ch: nat, shut: set<nat>, panicked: bool)

  /** What one pass through the lock-held part of Acquire decides. */
  datatype Attempt = Granted | Refused | Wait(ch: nat)

  function Fresh(high: int, low: int): Ctl {
    var h := if high <= 0 then DEFAULT_HIGH else high;
    var l := if low <= 0 then DEFAULT_LOW else low;
    Ctl(h, if l >= h then Max(h / 10, 1) else l, 0, false, false, 0, {}, false)
  }

  function Acquired(c: Ctl): (Ctl, Attempt) {
    if c.panicked || c.closed then (c, Refused)
    else if !c.blocked then
      (c.(pending := c.pending + 1, blocked := c.pending + 1 >= c.high), Granted)
    else (c, Wait(c.ch))
  }

  function Released(c: Ctl): Ctl {
    if c.panicked then c else
    var d := c.(pending := if c.pending > 0 then c.pending - 1 else c.pending);
    if !(d.blocked && d.pending <= d.low) then d
    else if d.ch in d.shut then d.(blocked := false, panicked := true)
    else d.(blocked := false, shut := d.shut + {d.ch}, ch := d.ch + 1)
  }

  function Closed(c: Ctl): Ctl {
    if c.panicked || c.closed then c
    else if c.ch in c.shut then c.(closed := true, panicked := true)
    else c.(closed := true, shut := c.shut + {c.ch})
  }

  /** The controller object. Each method is one lock-held section of the source. */
  class Controller {
    const high: int
    const low: int
    var pending: int
    var blocked: bool
    var closed: bool
    var ch: nat
    ghost var shut: set<nat>

    ghost function View(): Ctl
      reads this
    {
      Ctl(high, low, pending, blocked, closed, ch, shut, false)
    }

    constructor (high: int, low: int)
      ensures View() == Fresh(high, low)
    {
      var h, l := high, low;
      if h <= 0 { h := DEFAULT_HIGH; }
      if l <= 0 { l := DEFAULT_LOW; }
      if l >= h { l := Max(h / 10, 1); }
      this.high, this.low := h, l;
      pending, blocked, closed, ch := 0, false, false, 0;
      shut := {};
    }

    method TryAcquire() returns (attempt: Attempt)
      modifies this
      ensures (View(), attempt) == Acquired(old(View()))
    {
      if closed { return Refused; }
      if !blocked {
        pending := pending + 1;
        if pending >= high && !blocked { blocked := true; }
        return Granted;
      }
      return Wait(ch);
    }

    /** The guard is the one under which the source does not close a closed channel. */
    method Release()
      requires !Released(View()).panicked
      modifies this
      ensures View() == Released(old(View()))
    {
      if pending > 0 { pending := pending - 1; }
      if blocked && pending <= low {
        blocked := false;
        shut := shut + {ch};
        ch := ch + 1;
      }
    }

    method Close()
      requires !Closed(View()).panicked
      modifies this
      ensures View() == Closed(old(View()))
    {
      if closed { return; }
      closed := true;
      shut := shut + {ch};
    }
  }

  // ---- Every run of lock-held sections, by any number of goroutines ----

  datatype Op = Acquire | Release | Close

  function Next(c: Ctl, op: Op): Ctl {
    match op
    case Acquire => Acquired(c).0
    case Release => Released(c)
    case Close => Closed(c)
  }

  ghost predicate Inv(c: Ctl) {
    && 1 <= c.low <= c.high && (c.low == c.high ==> c.high == 1)
    && 0 <= c.pending <= c.high
    && (!c.blocked ==> c.pending < c.high)
    && (c.blocked ==> c.pending >= Min(c.low + 1, c.high))
    && (forall g: nat :: g in c.shut <==> g < c.ch || (c.closed && g == c.ch))
    && (c.panicked ==> c.closed && !c.blocked)
  }

  lemma StepKeepsInv(c: Ctl, op: Op)
    requires Inv(c)
    ensures Inv(Next(c, op))
  {}

  lemma RunKeepsInv(c: Ctl, run: seq<Op>)
    requires Inv(c)
    ensures Inv(Exec(Next, c, run))
  {
    forall t, op | Inv(t) ensures Inv(Next(t, op)) { StepKeepsInv(t, op); }
    Invariant(Next, Inv, c, run);
  }

  lemma FreshInv(high: int, low: int)
    ensures Inv(Fresh(high, low))
  {}

  /** Backpressure hysteresis, for all constructor arguments and all runs, with releases
      that match no acquire and with Close anywhere. */
  lemma Hysteresis(high: int, low: int, run: seq<Op>)
    ensures var c := Exec(Next, Fresh(high, low), run);
      && 0 <= c.pending <= c.high
      && (!c.blocked ==> c.pending < c.high)
      && (c.blocked ==> c.pending >= Min(c.low + 1, c.high))
      && (forall g :: 0 <= g < c.ch ==> g in c.shut)
      && (c.ch in c.shut <==> c.closed)
  {
    FreshInv(high, low);
    RunKeepsInv(Fresh(high, low), run);
  }

  /** Usable watermarks are kept as given, and others become usable ones: a low watermark that is
      not below the high one becomes a tenth of it, and at least 1. */
  lemma Watermarks(high: int, low: int)
    ensures var c := Fresh(high, low);
      && (1 <= low < high ==> c.high == high && c.low == low)
      && c.high == (if high > 0 then high else DEFAULT_HIGH)
      && 1 <= c.low <= c.high && (c.low == c.high <==> c.high == 1)
      && (high <= 0 && low <= 0 ==> c.high == 1000 && c.low == 100)
      && (low >= c.high && c.high >= 10 ==> 10 * c.low <= c.high < 10 * (c.low + 1))
      && (low >= c.high && c.high < 10 ==> c.low == 1)
  {}

  /** Where a controller switches, in every run: it blocks exactly when an acquire fills it
      to the high watermark, and unblocks exactly when a release brings it to the low one,
      which closes the channel its waiters hold. */
  lemma SwitchPoints(high: int, low: int, run: seq<Op>, op: Op)
    ensures var c := Exec(Next, Fresh(high, low), run); var d := Next(c, op);
      && (!c.blocked && d.blocked <==> op == Acquire && !c.panicked && !c.closed && !c.blocked && d.pending == c.high)
      && (c.blocked && !d.blocked <==> op == Release && c.blocked && c.pending - 1 <= c.low)
      && (c.blocked && !d.blocked && !d.panicked ==> c.ch in d.shut && d.ch == c.ch + 1)
      && (op == Acquire ==> d.pending == c.pending + (if c.panicked || c.closed || c.blocked then 0 else 1))
  {
    FreshInv(high, low);
    RunKeepsInv(Fresh(high, low), run);
  }

  /** Releases still needed before a blocked controller lets go. */
  function Needed(c: Ctl): int { Max(c.pending - c.low, 1) }

  /** After Close, a blocked controller panics exactly when enough releases follow. */
  lemma {:induction false} PanicAfterClose(c: Ctl, run: seq<Op>)
    requires Inv(c) && c.closed && !c.panicked
    ensures var d := Exec(Next, c, run);
      && d.closed && d.low == c.low
      && (d.panicked <==> c.blocked && multiset(run)[Release] >= Needed(c))
      && (c.blocked && !d.panicked ==> d.blocked && d.pending == c.pending - multiset(run)[Release])
      && (!c.blocked ==> !d.blocked)
    decreases |run|
  {
    if |run| > 0 {
      var init, last := run[..|run| - 1], run[|run| - 1];
      assert run == init + [last];
      PanicAfterClose(c, init);
      RunKeepsInv(c, init);
    }
  }

  lemma {:induction false} NoCloseNoPanic(c: Ctl, run: seq<Op>)
    requires Inv(c) && !c.closed && Close !in run
    ensures !Exec(Next, c, run).closed && !Exec(Next, c, run).panicked
    decreases |run|
  {
    if |run| > 0 {
      var init := run[..|run| - 1];
      assert run == init + [run[|run| - 1]];
      NoCloseNoPanic(c, init);
      RunKeepsInv(c, init);
    }
  }

  /** No generation is ever closed twice in a run without Close; in a run whose first Close
      comes after `before`, one is closed twice exactly when that Close found the
      controller blocked and at least `Needed` releases follow it. */
  lemma CloseOnceExactly(high: int, low: int, before: seq<Op>, after: seq<Op>)
    requires Close !in before
    ensures var c := Exec(Next, Fresh(high, low), before);
      && !c.panicked
      && (Exec(Next, Fresh(high, low), before + [Close] + after).panicked
          <==> c.blocked && multiset(after)[Release] >= Needed(c))
  {
    var s := Fresh(high, low);
    FreshInv(high, low);
    NoCloseNoPanic(s, before);
    RunKeepsInv(s, before);
    var c := Exec(Next, s, before);
    Split(Next, s, before + [Close], after);
    assert (before + [Close])[..|before|] == before;
    StepKeepsInv(c, Close);
    PanicAfterClose(Next(c, Close), after);
  }

  /** A concrete double close: fill a controller of watermark 1, close it, release. */
  lemma DoubleCloseHappens()
    ensures Exec(Next, Fresh(1, 1), [Acquire, Close, Release]).panicked
  {
    var run := [Acquire, Close, Release];
    assert run == [Acquire] + [Close] + [Release];
    assert Exec(Next, Fresh(1, 1), [Acquire]) == Next(Exec(Next, Fresh(1, 1), [Acquire][..0]), Acquire);
    CloseOnceExactly(1, 1, [Acquire], [Release]);
  }
}
