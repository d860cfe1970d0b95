/** The activity lifecycle, read off a call log: at most one activity is
    started at a time, only the started activity is stopped, delegated to or
    given its router start, the confirm dialog belongs to a running activity,
    and the scoped bus is cleared, or set on an activity through setEventBus,
    only while no activity runs. A delegate call, made on a running
    activity, also receives the bus; the log does not record that. */
module Lifecycle {
  import opened Collaborators

  /** Which activity the log says is running, or Broken once the log has
      left the lifecycle. */
  datatype Monitor = Running(active: Option<Activity>) | Broken

  function Observe<C>(m: Monitor, e: Event<C>): Monitor
  {
    match m
    case Broken => Broken
    case Running(a) =>
      match e
      case Start(x, _) => if a.None? then Running(Some(x)) else Broken
      case Stop(x) => if a == Some(x) then Running(None) else Broken
      case RemoveHandlers => if a.None? then m else Broken
      case SetEventBus(_) => if a.None? then m else Broken
      case RouterStart(x) => if a == Some(x) then m else Broken
      case Delegate(x, _) => if a == Some(x) then m else Broken
      case Confirm(_) => if a.Some? then m else Broken
  }

  /** The monitor after every event of the log, in order. */
  function Replay<C>(events: seq<Event<C>>, m: Monitor): Monitor
    decreases |events|
  {
    if events == [] then m else Replay(events[1..], Observe(m, events[0]))
  }

  /** The log, replayed from the start, follows the lifecycle and ends with `active` running. */
  ghost predicate Follows<C>(log: seq<Event<C>>, active: Option<Activity>)
  {
    Replay(log, Running(None)) == Running(active)
  }

  /** Replaying two logs one after the other is replaying their concatenation. */
  lemma {:induction false} ReplayAppend<C>(a: seq<Event<C>>, b: seq<Event<C>>, m: Monitor)
    ensures Replay(a + b, m) == Replay(b, Replay(a, m))
  {
    if a == [] {
      assert a + b == b;
    } else {
      assert (a + b)[0] == a[0];
      assert (a + b)[1..] == a[1..] + b;
      ReplayAppend(a[1..], b, Observe(m, a[0]));
    }
  }

  /** A log that has left the lifecycle never comes back to it. */
  lemma {:induction false} BrokenStaysBroken<C>(events: seq<Event<C>>)
    ensures Replay(events, Broken) == Broken
  {
    if events != [] {
      BrokenStaysBroken(events[1..]);
    }
  }

  /** A log that follows the lifecycle followed it at every point: no prefix
      of it ever started a second activity, stopped one not running, or
      cleared the bus while an activity ran. */
  lemma FollowsPrefix<C>(log: seq<Event<C>>, active: Option<Activity>)
    requires Follows(log, active)
    ensures forall k :: 0 <= k <= |log| ==> Replay(log[..k], Running(None)).Running?
  {
    forall k | 0 <= k <= |log|
      ensures Replay(log[..k], Running(None)).Running?
    {
      assert log[..k] + log[k..] == log;
      ReplayAppend(log[..k], log[k..], Running(None));
      BrokenStaysBroken(log[k..]);
    }
  }
}
