/** Connection states and their transition table (pkg/connection/state.go). */
module States {

  datatype ConnState = Disconnected | Connecting | Connected | Established | Reconnecting | Cooldown

  predicate CanTransition(s: ConnState, t: ConnState) {
    match s
    case Disconnected => t == Connecting || t == Reconnecting
    case Connecting => t == Connected || t == Disconnected
    case Connected => t == Established || t == Disconnected || t == Cooldown
    case Established => t == Disconnected
    case Reconnecting => t == Connecting || t == Disconnected
    case Cooldown => t == Disconnected || t == Reconnecting
  }

  predicate IsActive(s: ConnState) { s == Connecting || s == Connected || s == Established }

  /** Where an unchecked request to go to `t` ends. */
  function Moved(s: ConnState, t: ConnState): ConnState { if CanTransition(s, t) then t else s }

  /** A walk of the table from the state of a new connection. */
  ghost predicate Walk(h: seq<ConnState>) {
    && |h| > 0 && h[0] == Disconnected
    && forall i :: 0 < i < |h| ==> CanTransition(h[i - 1], h[i])
  }

  function Count(h: seq<ConnState>, s: ConnState): nat { multiset(h)[s] }

  /** Number of direct falls from Connected to Disconnected. */
  ghost function Falls(h: seq<ConnState>): nat
    decreases |h|
  {
    if |h| < 2 then 0
    else Falls(h[..|h| - 1]) + (if h[|h| - 2] == Connected && h[|h| - 1] == Disconnected then 1 else 0)
  }

  /** Along a walk every entry into Connected is left at most once, and by exactly one of
      establishment, cooldown and a fall. */
  lemma {:induction false} EachEntryLeavesOnce(h: seq<ConnState>)
    requires Walk(h)
    ensures Count(h, Connected) ==
            Count(h, Established) + Count(h, Cooldown) + Falls(h) + (if h[|h| - 1] == Connected then 1 else 0)
    decreases |h|
  {
    if |h| > 1 {
      EachEntryLeavesOnce(h[..|h| - 1]);
      CountLast(h, Connected);
      CountLast(h, Established);
      CountLast(h, Cooldown);
      assert CanTransition(h[|h| - 2], h[|h| - 1]);
    } else {
      assert h == [Disconnected];
    }
  }

  lemma CountLast(h: seq<ConnState>, s: ConnState)
    requires |h| > 0
    ensures Count(h, s) == Count(h[..|h| - 1], s) + (if h[|h| - 1] == s then 1 else 0)
  {
    assert h == h[..|h| - 1] + [h[|h| - 1]];
  }

  /** In a walk Established and Cooldown come only from Connected, Connected only from
      Connecting; and a request to go to Disconnected ends there from every state, so
      ignoring its error is harmless. */
  lemma TableFacts(h: seq<ConnState>, i: nat, s: ConnState)
    requires Walk(h) && 0 < i < |h|
    ensures h[i] == Established || h[i] == Cooldown ==> h[i - 1] == Connected
    ensures h[i] == Connected ==> h[i - 1] == Connecting
    ensures Moved(s, Disconnected) == Disconnected
  {
    assert CanTransition(h[i - 1], h[i]);
  }
}
