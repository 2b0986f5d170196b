/**
 * The screenshot overlay: closed, or open for a replay session, or open
 * for a request. Every transition overwrites the whole state.
 */
module Overlay {
  import opened Wrappers

  datatype OverlayState = OverlayState(isOpen: bool, sessionId: Option<string>, requestId: Option<string>)

  /** The state the overlay starts in. */
  const Closed := OverlayState(false, None, None)

  datatype OverlayEvent =
    | Open(sessionId: string)
    | OpenForRequest(requestId: string)
    | Close

  /** The state after an event; the previous state is overwritten. */
  function Next(s: OverlayState, e: OverlayEvent): OverlayState {
    match e
    case Open(sessionId) => OverlayState(true, Some(sessionId), None)
    case OpenForRequest(requestId) => OverlayState(true, None, Some(requestId))
    case Close => Closed
  }

  /** The state after a sequence of events, starting closed. */
  function Run(events: seq<OverlayEvent>): OverlayState {
    if events == [] then Closed else Next(Run(events[..|events| - 1]), events[|events| - 1])
  }

  /** Never both ids, and no id while closed; an open overlay has exactly one. */
  predicate Consistent(s: OverlayState) {
    && !(s.sessionId.Some? && s.requestId.Some?)
    && (!s.isOpen ==> s.sessionId.None? && s.requestId.None?)
    && (s.isOpen ==> s.sessionId.Some? || s.requestId.Some?)
  }

  // ------------------------------------------------------------------ lemmas

  /** Each event leads to a consistent state whatever the state before, and is what it says. */
  lemma NextConsistent(s: OverlayState, e: OverlayEvent)
    ensures Consistent(Next(s, e))
    ensures Next(s, e).isOpen <==> !e.Close?
    ensures e.Open? ==> Next(s, e).sessionId == Some(e.sessionId)
    ensures e.OpenForRequest? ==> Next(s, e).requestId == Some(e.requestId)
  {
  }

  /** Every reachable state is consistent. */
  lemma {:induction false} ReachableConsistent(events: seq<OverlayEvent>)
    ensures Consistent(Run(events))
  {
    if events != [] {
      NextConsistent(Run(events[..|events| - 1]), events[|events| - 1]);
    }
  }

  /** The state depends only on the last event. */
  lemma {:induction false} RunIsLastEvent(events: seq<OverlayEvent>)
    ensures events == [] ==> Run(events) == Closed
    ensures events != [] ==> Run(events) == Next(Closed, events[|events| - 1])
  {
  }

  // ------------------------------------------------------------------- store

  class OverlayStore {
    var state: OverlayState
    /** The transitions made so far. */
    ghost var history: seq<OverlayEvent>

    /** The state is the one the transitions made so far lead to. */
    ghost predicate Valid()
      reads this
    {
      state == Run(history)
    }

    constructor()
      ensures Valid() && history == []
      ensures state == Closed
    {
      state := Closed;
      history := [];
    }

    /** A store built and driven only through its methods is always consistent. */
    lemma StateConsistent()
      requires Valid()
      ensures Consistent(state)
    {
      ReachableConsistent(history);
    }

    method OpenOverlay(sessionId: string)
      requires Valid()
      modifies this
      ensures Valid() && history == old(history) + [Open(sessionId)]
      ensures state == Next(old(state), Open(sessionId))
      ensures state.isOpen && state.sessionId == Some(sessionId) && state.requestId == None
    {
      state := OverlayState(true, Some(sessionId), None);
      history := history + [Open(sessionId)];
      assert history[..|history| - 1] == old(history);
    }

    method OpenOverlayForRequest(requestId: string)
      requires Valid()
      modifies this
      ensures Valid() && history == old(history) + [OpenForRequest(requestId)]
      ensures state == Next(old(state), OpenForRequest(requestId))
      ensures state.isOpen && state.sessionId == None && state.requestId == Some(requestId)
    {
      state := OverlayState(true, None, Some(requestId));
      history := history + [OpenForRequest(requestId)];
      assert history[..|history| - 1] == old(history);
    }

    method CloseOverlay()
      requires Valid()
      modifies this
      ensures Valid() && history == old(history) + [Close]
      ensures state == Next(old(state), Close)
      ensures state == Closed
    {
      state := Closed;
      history := history + [Close];
      assert history[..|history| - 1] == old(history);
    }
  }
}
