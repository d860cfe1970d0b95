/** The place-change state machine of the activity manager: a pure
    description of one command (Handle), the properties of each of its five
    paths, and the manager class whose methods are proved against it. */
module ActivityManagement {
  import opened Collaborators
  import opened Lifecycle

  /** What the manager holds: the current activity, the panel last given to
      it, and how many times the scoped event bus has dropped its handlers. */
  datatype State<C> = State(current: Option<Activity>, panel: Option<C>, generation: nat)

  /** The five ways a place-change command can end. */
  datatype Path = Ignored | Delegated | RedirectCancelled | StopRefused | Transitioned

  /** The state, the command and the calls made, after one command. */
  datatype Outcome<C> = Outcome(path: Path, state: State<C>, command: Command, events: seq<Event<C>>)

  /** The previous place is known and of the same class as the target. */
  predicate SameKind(previous: Option<Place>, place: Place)
  {
    previous.Some? && previous.value.kind == place.kind
  }

  /** The manager asks `activity` to take the command over by calling delegate. */
  predicate Offered(activity: Option<Activity>, accepts: bool)
  {
    activity.Some? && activity.value.delegable && accepts
  }

  /** The calls made while trying to hand the command to `activity`. */
  function Delegation<C>(activity: Option<Activity>, place: Place, accepts: bool): seq<Event<C>>
  {
    if Offered(activity, accepts) then [Delegate(activity.value, place)] else []
  }

  /** Whether suspending `current` succeeds, with the calls made doing it. */
  function Suspension<C>(current: Option<Activity>, stopMessage: Option<string>, confirmed: bool): (bool, seq<Event<C>>)
  {
    match current
    case None => (true, [])
    case Some(a) =>
      match stopMessage
      case None => (true, [Stop(a)])
      case Some(message) =>
        if confirmed then (true, [Confirm(message), Stop(a)]) else (false, [Confirm(message)])
  }

  /** The calls made on the new activity once the bus has been cleared. */
  function StartCalls<C>(next: Activity, place: Place, panel: Option<C>, accepts: bool): seq<Event<C>>
  {
    (if next.hasEventBus then [SetEventBus(next)] else [])
    + [Start(next, panel)]
    + (if next.hasCommandRouter then [RouterStart(next)] else [])
    + (if next.delegable && accepts then [Delegate(next, place)] else [])
  }

  /** One place-change command, handled from state `s`. */
  function Handle<C>(mapper: Place -> Activity, s: State<C>, c: Command, previous: Option<Place>, ans: Answers): Outcome<C>
  {
    if SameKind(previous, c.place) then Outcome(Ignored, s, c, []) else Dispatch(mapper, s, c, ans)
  }

  /** A command for a new class of place: first offered to the current activity. */
  function Dispatch<C>(mapper: Place -> Activity, s: State<C>, c: Command, ans: Answers): Outcome<C>
  {
    var delegation := Delegation(s.current, c.place, ans.currentAccepts);
    if Offered(s.current, ans.currentAccepts) && ans.currentDelegates then
      Outcome(Delegated, s, c, delegation)
    else
      Undelegated(mapper, s, c, ans, delegation)
  }

  /** A command the current activity did not take over, after the calls `log`. */
  function Undelegated<C>(mapper: Place -> Activity, s: State<C>, c: Command, ans: Answers, log: seq<Event<C>>): Outcome<C>
  {
    if c.redirected then
      Outcome(RedirectCancelled, s, c.(silenced := true, cancelled := true), log)
    else
      var (suspended, suspension) := Suspension(s.current, ans.stopMessage, ans.confirmed);
      if !suspended then
        Outcome(StopRefused, s, c.(silenced := true, cancelled := true), log + suspension)
      else
        Transition(mapper, s, c, ans, log + suspension)
  }

  /** The switch to the activity mapped to the target place, after the calls `log`. */
  function Transition<C>(mapper: Place -> Activity, s: State<C>, c: Command, ans: Answers, log: seq<Event<C>>): Outcome<C>
  {
    var next := mapper(c.place);
    Outcome(Transitioned, State(Some(next), s.panel, s.generation + 1), c,
            log + [RemoveHandlers] + StartCalls(next, c.place, s.panel, ans.nextAccepts))
  }

  /** No activity's lifecycle call (onStop, onStart, removeHandlers) is in the log. */
  predicate NoLifecycleCalls<C>(events: seq<Event<C>>)
  {
    forall i :: 0 <= i < |events| ==> !events[i].Stop? && !events[i].Start? && !events[i].RemoveHandlers?
  }

  /** Which path a command takes, and under exactly which conditions. */
  lemma PathChoice<C>(mapper: Place -> Activity, s: State<C>, c: Command, previous: Option<Place>, ans: Answers)
    ensures var o := Handle(mapper, s, c, previous, ans);
      var delegated := Offered(s.current, ans.currentAccepts) && ans.currentDelegates;
      var refused := s.current.Some? && ans.stopMessage.Some? && !ans.confirmed;
      && (o.path == Ignored <==> SameKind(previous, c.place))
      && (o.path == Delegated <==> !SameKind(previous, c.place) && delegated)
      && (o.path == RedirectCancelled <==> !SameKind(previous, c.place) && !delegated && c.redirected)
      && (o.path == StopRefused <==> !SameKind(previous, c.place) && !delegated && !c.redirected && refused)
      && (o.path == Transitioned <==> !SameKind(previous, c.place) && !delegated && !c.redirected && !refused)
  {
  }

  /** A command for a place of the same class as the previous one changes nothing. */
  lemma SameKindIsNoOp<C>(mapper: Place -> Activity, s: State<C>, c: Command, previous: Option<Place>, ans: Answers)
    requires SameKind(previous, c.place)
    ensures var o := Handle(mapper, s, c, previous, ans);
      o.path == Ignored && o.state == s && o.command == c && o.events == []
  {
  }

  /** A command the current activity takes over leaves the manager and the
      command as they were; only the delegate call is made. */
  lemma DelegationLeavesStateAlone<C>(mapper: Place -> Activity, s: State<C>, c: Command, previous: Option<Place>, ans: Answers)
    requires Handle(mapper, s, c, previous, ans).path == Delegated
    ensures var o := Handle(mapper, s, c, previous, ans);
      && s.current.Some? && s.current.value.delegable && ans.currentAccepts && ans.currentDelegates
      && o.state == s && o.command == c
      && o.events == [Delegate(s.current.value, c.place)]
      && NoLifecycleCalls(o.events)
  {
  }

  /** A redirect that was not delegated is silenced and cancelled; the
      current activity is kept and not stopped. */
  lemma RedirectIsCancelled<C>(mapper: Place -> Activity, s: State<C>, c: Command, previous: Option<Place>, ans: Answers)
    requires Handle(mapper, s, c, previous, ans).path == RedirectCancelled
    ensures var o := Handle(mapper, s, c, previous, ans);
      && c.redirected
      && o.state == s
      && o.command == c.(silenced := true, cancelled := true)
      && NoLifecycleCalls(o.events)
  {
  }

  /** When the user declines to leave the current activity, the command is
      silenced and cancelled, the activity is kept and not stopped, and the
      bus keeps its handlers; the last call made is the confirm dialog. */
  lemma RefusedStopCancels<C>(mapper: Place -> Activity, s: State<C>, c: Command, previous: Option<Place>, ans: Answers)
    requires Handle(mapper, s, c, previous, ans).path == StopRefused
    ensures var o := Handle(mapper, s, c, previous, ans);
      && s.current.Some? && ans.stopMessage.Some? && !ans.confirmed
      && o.state == s
      && o.command == c.(silenced := true, cancelled := true)
      && NoLifecycleCalls(o.events)
      && |o.events| > 0 && o.events[|o.events| - 1] == Confirm(ans.stopMessage.value)
  {
  }

  /** The position of the first call that clears the scoped bus, or the
      length of the log when there is none. */
  function FirstClear<C>(events: seq<Event<C>>): (i: nat)
    ensures i <= |events|
    ensures i < |events| ==> events[i] == RemoveHandlers
    ensures forall j :: 0 <= j < i ==> events[j] != RemoveHandlers
  {
    if events == [] then 0
    else if events[0] == RemoveHandlers then 0
    else 1 + FirstClear(events[1..])
  }

  /** In a log made of calls that do not clear the bus, one clear and the
      rest, the first clear is the one between the two parts. */
  lemma FirstClearBetween<C>(before: seq<Event<C>>, after: seq<Event<C>>)
    requires RemoveHandlers !in before
    ensures FirstClear(before + [RemoveHandlers] + after) == |before|
  {
    var events := before + [RemoveHandlers] + after;
    assert events[|before|] == RemoveHandlers;
    assert forall j :: 0 <= j < |before| ==> events[j] == before[j];
  }

  /** A full transition installs the mapped activity, leaves the panel and
      the command alone, and clears the bus exactly once; before the clear
      the old activity (if any) is stopped and nothing is started; after it
      the new activity is started with the panel held and nothing is stopped,
      and the optional calls are made exactly when the new activity supports them. */
  lemma TransitionResult<C>(mapper: Place -> Activity, s: State<C>, c: Command, previous: Option<Place>, ans: Answers)
    requires Handle(mapper, s, c, previous, ans).path == Transitioned
    ensures var o := Handle(mapper, s, c, previous, ans);
      var next := mapper(c.place);
      var k := FirstClear(o.events);
      var before := o.events[..k];
      var after := if k < |o.events| then o.events[k + 1..] else [];
      && o.state == State(Some(next), s.panel, s.generation + 1)
      && o.command == c
      && k < |o.events|
      && RemoveHandlers !in after
      && (s.current.Some? ==> Stop(s.current.value) in before)
      && (forall i :: 0 <= i < |before| ==> !before[i].Start?)
      && (forall i :: 0 <= i < |after| ==> !after[i].Stop?)
      && Start(next, s.panel) in after
      && (SetEventBus(next) in after <==> next.hasEventBus)
      && (RouterStart(next) in after <==> next.hasCommandRouter)
      && (Delegate(next, c.place) in after <==> next.delegable && ans.nextAccepts)
  {
    TransitionLog(mapper, s, c, previous, ans);
    var o := Handle(mapper, s, c, previous, ans);
    var next := mapper(c.place);
    var pre: seq<Event<C>> := Delegation(s.current, c.place, ans.currentAccepts)
                              + Suspension(s.current, ans.stopMessage, ans.confirmed).1;
    var starts := StartCalls(next, c.place, s.panel, ans.nextAccepts);
    BeforeClearFacts<C>(s.current, c.place, ans);
    StartCallsFacts(next, c.place, s.panel, ans.nextAccepts);
    FirstClearBetween(pre, starts);
    assert FirstClear(o.events) == |pre|;
    assert o.events[..|pre|] == pre;
    assert o.events[|pre| + 1..] == starts;
  }

  /** Helper for TransitionResult: the Transitioned branch of Handle written
      out as one log (the failed delegation, the suspension, one clear of the
      bus, the calls on the new activity). */
  lemma TransitionLog<C>(mapper: Place -> Activity, s: State<C>, c: Command, previous: Option<Place>, ans: Answers)
    requires Handle(mapper, s, c, previous, ans).path == Transitioned
    ensures var o := Handle(mapper, s, c, previous, ans);
      var next := mapper(c.place);
      var (suspended, suspension) := Suspension<C>(s.current, ans.stopMessage, ans.confirmed);
      && suspended
      && o.events == Delegation(s.current, c.place, ans.currentAccepts) + suspension + [RemoveHandlers]
                     + StartCalls(next, c.place, s.panel, ans.nextAccepts)
      && o.state == State(Some(next), s.panel, s.generation + 1)
      && o.command == c
  {
  }

  /** The calls made before the bus is cleared: no clear, no start, and the
      stop of the current activity when its suspension succeeds. */
  lemma BeforeClearFacts<C>(current: Option<Activity>, place: Place, ans: Answers)
    ensures var (suspended, suspension) := Suspension<C>(current, ans.stopMessage, ans.confirmed);
      var pre := Delegation<C>(current, place, ans.currentAccepts) + suspension;
      && RemoveHandlers !in pre
      && (forall i :: 0 <= i < |pre| ==> !pre[i].Start?)
      && (current.Some? && suspended ==> Stop(current.value) in pre)
  {
  }

  /** The calls made on the new activity: it is started with the panel, it
      is not stopped, the bus is not cleared again, and each optional call is
      made exactly when the activity supports it. */
  lemma StartCallsFacts<C>(next: Activity, place: Place, panel: Option<C>, accepts: bool)
    ensures var t := StartCalls(next, place, panel, accepts);
      && RemoveHandlers !in t
      && Start(next, panel) in t
      && (forall i :: 0 <= i < |t| ==> !t[i].Stop?)
      && (SetEventBus(next) in t <==> next.hasEventBus)
      && (RouterStart(next) in t <==> next.hasCommandRouter)
      && (Delegate(next, place) in t <==> next.delegable && accepts)
  {
  }

  /** What the new activity's delegate returns does not matter: the outcome
      is the same whatever it answers. The answer `nextDelegates` exists only
      to state this, since the model reads it nowhere, as line 94 discards it. */
  lemma NextDelegateResultIgnored<C>(mapper: Place -> Activity, s: State<C>, c: Command, previous: Option<Place>, ans: Answers, answer: bool)
    ensures Handle(mapper, s, c, previous, ans) == Handle(mapper, s, c, previous, ans.(nextDelegates := answer))
  {
  }

  /** The scoped bus drops its handlers on a transition and on no other path,
      and no path changes the panel. */
  lemma OnlyTransitionClearsHandlers<C>(mapper: Place -> Activity, s: State<C>, c: Command, previous: Option<Place>, ans: Answers)
    ensures var o := Handle(mapper, s, c, previous, ans);
      && o.state.generation == (if o.path == Transitioned then s.generation + 1 else s.generation)
      && o.state.panel == s.panel
      && (o.path != Transitioned ==> o.state.current == s.current)
  {
  }

  /** The command ends cancelled exactly when it was already cancelled or the
      manager cancelled it as a redirect or after a refused stop. */
  lemma CancelledExactlyWhenRejected<C>(mapper: Place -> Activity, s: State<C>, c: Command, previous: Option<Place>, ans: Answers)
    ensures var o := Handle(mapper, s, c, previous, ans);
      && (o.command.cancelled <==> c.cancelled || o.path == RedirectCancelled || o.path == StopRefused)
      && (o.command.silenced <==> c.silenced || o.path == RedirectCancelled || o.path == StopRefused)
      && o.command.place == c.place && o.command.redirected == c.redirected
  {
  }

  /** Every path keeps the lifecycle: replayed from the running activity,
      the calls of one command end with the new current activity running. */
  lemma HandleKeepsLifecycle<C>(mapper: Place -> Activity, s: State<C>, c: Command, previous: Option<Place>, ans: Answers)
    ensures var o := Handle(mapper, s, c, previous, ans);
      Replay(o.events, Running(s.current)) == Running(o.state.current)
  {
    var o := Handle(mapper, s, c, previous, ans);
    if o.path == Ignored || o.path == Delegated || o.path == RedirectCancelled {
    } else {
      var delegation: seq<Event<C>> := Delegation(s.current, c.place, ans.currentAccepts);
      var suspension := Suspension(s.current, ans.stopMessage, ans.confirmed).1;
      var start := Running(s.current);
      assert Replay(delegation, start) == start;
      ReplayAppend(delegation, suspension, start);
      SuspensionStops<C>(s.current, ans.stopMessage, ans.confirmed);
      if o.path == StopRefused {
        assert o.events == delegation + suspension;
      } else {
        var next := mapper(c.place);
        var starts := StartCalls(next, c.place, s.panel, ans.nextAccepts);
        ReplayAppend(delegation + suspension, [RemoveHandlers], start);
        ReplayAppend(delegation + suspension + [RemoveHandlers], starts, start);
        StartCallsRun(next, c.place, s.panel, ans.nextAccepts);
      }
    }
  }

  /** Suspending the running activity leaves nothing running when it
      succeeds and leaves the activity running when the user declines. */
  lemma SuspensionStops<C>(current: Option<Activity>, stopMessage: Option<string>, confirmed: bool)
    ensures var (suspended, calls) := Suspension<C>(current, stopMessage, confirmed);
      Replay(calls, Running(current)) == Running(if suspended then None else current)
  {
    match current
    case None =>
    case Some(a) =>
      var stop: seq<Event<C>> := [Stop(a)];
      assert Replay(stop, Running(current)) == Running(None) by {
        assert stop[1..] == [];
      }
      match stopMessage
      case None =>
      case Some(message) =>
        var confirm: seq<Event<C>> := [Confirm(message)];
        assert Replay(confirm, Running(current)) == Running(current) by {
          assert confirm[1..] == [];
        }
        ReplayAppend(confirm, stop, Running(current));
        assert confirm + stop == [Confirm(message), Stop(a)];
  }

  /** The calls on a new activity, made while nothing runs, leave it running. */
  lemma StartCallsRun<C>(next: Activity, place: Place, panel: Option<C>, accepts: bool)
    ensures Replay(StartCalls(next, place, panel, accepts), Running(None)) == Running(Some(next))
  {
    var bus: seq<Event<C>> := if next.hasEventBus then [SetEventBus(next)] else [];
    var router: seq<Event<C>> := if next.hasCommandRouter then [RouterStart(next)] else [];
    var delegation: seq<Event<C>> := if next.delegable && accepts then [Delegate(next, place)] else [];
    assert Replay(bus, Running(None)) == Running(None);
    ReplayAppend(bus, [Start(next, panel)], Running(None));
    ReplayAppend(bus + [Start(next, panel)], router, Running(None));
    assert Replay(router, Running(Some(next))) == Running(Some(next));
    ReplayAppend(bus + [Start(next, panel)] + router, delegation, Running(None));
    assert Replay(delegation, Running(Some(next))) == Running(Some(next));
  }

  /** One command keeps a call log that follows the lifecycle in step with the current activity. */
  lemma StepKeepsLifecycle<C>(log: seq<Event<C>>, log': seq<Event<C>>, mapper: Place -> Activity, s: State<C>, c: Command, previous: Option<Place>, ans: Answers)
    requires Follows(log, s.current)
    requires log' == log + Handle(mapper, s, c, previous, ans).events
    ensures Follows(log', Handle(mapper, s, c, previous, ans).state.current)
  {
    var o := Handle(mapper, s, c, previous, ans);
    HandleKeepsLifecycle(mapper, s, c, previous, ans);
    ReplayAppend(log, o.events, Running(None));
  }

  /** A successful suspension, after a delegation that was refused, leaves
      no activity running in a log that followed the lifecycle. */
  lemma SuspendedLeavesNothingRunning<C>(log: seq<Event<C>>, current: Option<Activity>, place: Place, ans: Answers)
    requires Follows(log, current)
    requires Suspension<C>(current, ans.stopMessage, ans.confirmed).0
    ensures Follows(log + Delegation(current, place, ans.currentAccepts)
                    + Suspension<C>(current, ans.stopMessage, ans.confirmed).1, None)
  {
    var delegation: seq<Event<C>> := Delegation(current, place, ans.currentAccepts);
    var suspension := Suspension<C>(current, ans.stopMessage, ans.confirmed).1;
    assert Replay(delegation, Running(current)) == Running(current);
    ReplayAppend(delegation, suspension, Running(current));
    SuspensionStops<C>(current, ans.stopMessage, ans.confirmed);
    ReplayAppend(log, delegation + suspension, Running(None));
    assert log + delegation + suspension == log + (delegation + suspension);
  }

  /** Clearing the bus and starting a new activity, while nothing runs,
      keeps the lifecycle and leaves the new activity running. */
  lemma ClearAndStartRun<C>(log: seq<Event<C>>, next: Activity, place: Place, panel: Option<C>, accepts: bool)
    requires Follows(log, None)
    ensures Follows(log + [RemoveHandlers] + StartCalls(next, place, panel, accepts), Some(next))
  {
    var clear: seq<Event<C>> := [RemoveHandlers];
    assert Replay(clear, Running(None)) == Running(None) by {
      assert clear[1..] == [];
    }
    ReplayAppend(log, clear, Running(None));
    ReplayAppend(log + clear, StartCalls(next, place, panel, accepts), Running(None));
    StartCallsRun(next, place, panel, accepts);
  }

  /** Concatenation of logs is associative (a proof hint for the method
      below; Dafny proves it unaided). */
  lemma ConcatAssoc<T>(a: seq<T>, b: seq<T>, c: seq<T>)
    ensures (a + b) + c == a + (b + c)
  {
  }

  /** Appending the calls on a new activity one at a time, as the manager
      makes them, gives the log followed by StartCalls (a proof hint for
      StartActivity; Dafny proves it unaided). */
  lemma AppendStartCalls<C>(log: seq<Event<C>>, next: Activity, place: Place, panel: Option<C>, accepts: bool)
    ensures log + (if next.hasEventBus then [SetEventBus(next)] else []) + [Start(next, panel)]
            + (if next.hasCommandRouter then [RouterStart(next)] else [])
            + (if next.delegable && accepts then [Delegate(next, place)] else [])
            == log + StartCalls(next, place, panel, accepts)
  {
  }

  /** The activity manager: binds place changes to activities. */
  class ActivityManager<C> {
    const mapper: Place -> Activity
    var panel: Option<C>
    var currentActivity: Option<Activity>
    /** How many times the scoped event bus has dropped its handlers. */
    var handlerGeneration: nat
    /** Every call made on a collaborator, in order. */
    ghost var Trace: seq<Event<C>>

    /** The call log follows the lifecycle and ends with the current activity running. */
    ghost predicate Valid()
      reads this
    {
      Follows(Trace, currentActivity)
    }

    /** The manager's state as a value. */
    function Snapshot(): State<C>
      reads this
    {
      State(currentActivity, panel, handlerGeneration)
    }

    constructor (mapper: Place -> Activity)
      ensures Valid()
      ensures this.mapper == mapper
      ensures Snapshot() == State(None, None, 0) && Trace == []
    {
      this.mapper := mapper;
      panel := None;
      currentActivity := None;
      handlerGeneration := 0;
      Trace := [];
    }

    method SetPanel(panel: C)
      requires Valid()
      modifies this`panel
      ensures Valid()
      ensures this.panel == Some(panel)
    {
      this.panel := Some(panel);
    }

    /** Hands the command to `activity` if it is delegable and accepts the
        place; true only if it then takes the command over. */
    method DelegateToActivity(activity: Option<Activity>, c: PlaceChangeCommand, accepts: bool, delegates: bool)
      returns (taken: bool, ghost calls: seq<Event<C>>)
      ensures taken <==> activity.Some? && activity.value.delegable && accepts && delegates
      ensures activity.Some? && activity.value.delegable && accepts ==> calls == [Delegate(activity.value, c.value)]
      ensures !(activity.Some? && activity.value.delegable && accepts) ==> calls == []
    {
      calls := [];
      if activity.Some? && activity.value.delegable {
        if accepts {
          calls := [Delegate(activity.value, c.value)];
          return delegates, calls;
        } else {
          return false, calls;
        }
      }
      return false, calls;
    }

    /** Stops `current`, first asking the user when it has a stop message;
        false, with the activity left running, when the user declines. */
    static method SuspendActivity(current: Option<Activity>, stopMessage: Option<string>, confirmed: bool)
      returns (suspended: bool, ghost calls: seq<Event<C>>)
      ensures suspended <==> current.None? || stopMessage.None? || confirmed
      ensures current.None? ==> calls == []
      ensures current.Some? && stopMessage.None? ==> calls == [Stop(current.value)]
      ensures current.Some? && stopMessage.Some? && confirmed ==>
        calls == [Confirm(stopMessage.value), Stop(current.value)]
      ensures current.Some? && stopMessage.Some? && !confirmed ==>
        calls == [Confirm(stopMessage.value)]
    {
      calls := [];
      if current.None? {
        return true, calls;
      }
      if stopMessage.Some? {
        calls := calls + [Confirm(stopMessage.value)];
        if confirmed {
          calls := calls + [Stop(current.value)];
        } else {
          return false, calls;
        }
      } else {
        calls := calls + [Stop(current.value)];
      }
      return true, calls;
    }

    /** The last stage of a transition: clears the scoped bus, installs the
        activity mapped to `place` and starts it with the panel, then gives it
        the optional calls it supports. It is called only once the current
        activity, if any, has been stopped. */
    method StartActivity(place: Place, accepts: bool)
      requires Follows(Trace, None)
      modifies this`handlerGeneration, this`currentActivity, this`Trace
      ensures Valid()
      ensures currentActivity == Some(mapper(place))
      ensures handlerGeneration == old(handlerGeneration) + 1
      ensures Trace == old(Trace) + [RemoveHandlers] + StartCalls(mapper(place), place, panel, accepts)
    {
      handlerGeneration := handlerGeneration + 1;
      ghost var cleared := Trace + [RemoveHandlers];
      Trace := cleared;

      var activity := mapper(place);
      if activity.hasEventBus {
        Trace := Trace + [SetEventBus(activity)];
      }
      currentActivity := Some(activity);

      Trace := Trace + [Start(activity, panel)];
      if activity.hasCommandRouter {
        Trace := Trace + [RouterStart(activity)];
      }
      if activity.delegable {
        if accepts {
          Trace := Trace + [Delegate(activity, place)];
        }
      }
      AppendStartCalls(cleared, activity, place, panel, accepts);
      ClearAndStartRun(old(Trace), activity, place, panel, accepts);
      assert Trace == old(Trace) + [RemoveHandlers] + StartCalls(activity, place, panel, accepts);
    }

    /** Handles a place-change command, given the previous place and what
        the activities and the user answer along the way. */
    method OnPlaceChangeCommand(c: PlaceChangeCommand, previousPlace: Option<Place>, ans: Answers)
      requires Valid()
      modifies this, c
      ensures Valid()
      ensures var o := Handle(mapper, old(Snapshot()), old(c.Snapshot()), previousPlace, ans);
        Snapshot() == o.state && c.Snapshot() == o.command && Trace == old(Trace) + o.events
    {
      ghost var s0, c0 := Snapshot(), c.Snapshot();
      ghost var o := Handle(mapper, s0, c0, previousPlace, ans);

      var place := c.value;
      if previousPlace.Some? && previousPlace.value.kind == place.kind {
        assert Trace + [] == Trace;
        StepKeepsLifecycle(old(Trace), Trace, mapper, s0, c0, previousPlace, ans);
        return;
      }
      assert o == Dispatch(mapper, s0, c0, ans);

      var delegated, delegation := DelegateToActivity(currentActivity, c, ans.currentAccepts, ans.currentDelegates);
      Trace := Trace + delegation;
      if delegated {
        assert o == Outcome(Delegated, s0, c0, delegation);
        assert Trace == old(Trace) + o.events;
        StepKeepsLifecycle(old(Trace), Trace, mapper, s0, c0, previousPlace, ans);
        return;
      }
      assert o == Undelegated(mapper, s0, c0, ans, delegation);

      if c.redirected {
        c.Silence();
        c.Cancel();
        assert o == Outcome(RedirectCancelled, s0, c.Snapshot(), delegation);
        assert Trace == old(Trace) + o.events;
        StepKeepsLifecycle(old(Trace), Trace, mapper, s0, c0, previousPlace, ans);
        return;
      }

      var suspended, suspension := SuspendActivity(currentActivity, ans.stopMessage, ans.confirmed);
      Trace := Trace + suspension;
      ConcatAssoc(old(Trace), delegation, suspension);
      if !suspended {
        c.Silence();
        c.Cancel();
        assert o == Outcome(StopRefused, s0, c.Snapshot(), delegation + suspension);
        assert Trace == old(Trace) + o.events;
        StepKeepsLifecycle(old(Trace), Trace, mapper, s0, c0, previousPlace, ans);
        return;
      }
      assert o == Transition(mapper, s0, c0, ans, delegation + suspension);
      SuspendedLeavesNothingRunning(old(Trace), s0.current, place, ans);

      StartActivity(place, ans.nextAccepts);
      ghost var starts := StartCalls(mapper(place), place, s0.panel, ans.nextAccepts);
      assert o.events == delegation + suspension + [RemoveHandlers] + starts;
      ConcatAssoc(old(Trace), delegation + suspension, [RemoveHandlers]);
      ConcatAssoc(old(Trace), delegation + suspension + [RemoveHandlers], starts);
      assert Trace == old(Trace) + o.events;
    }
  }
}
