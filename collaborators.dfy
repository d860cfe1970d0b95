/** The collaborators the activity manager talks to: places, activities,
    the answers they give, the calls the manager makes on them, and the
    place-change command it handles. */
module Collaborators {

  datatype Option<T> = None | Some(value: T)

  /** The class of a place. Two places of the same class show the same screen. */
  type PlaceKind = nat

  /** A navigable application state: its class and its token. */
  datatype Place = Place(kind: PlaceKind, token: string)

  /** An activity as the manager sees it: an identity, and which of the
      optional interfaces (DelegableActivity, HasEventBus, HasCommandRouter)
      its class implements. */
  datatype Activity = Activity(id: nat, delegable: bool, hasEventBus: bool, hasCommandRouter: bool)

  /** What the activities and the user answer, while one command is handled,
      to the questions the manager may ask. An answer is only used when the
      question is actually asked. */
  datatype Answers = Answers(
    currentAccepts: bool,        // the current activity's isDelegable(place)
    currentDelegates: bool,      // what the current activity's delegate(bus, command) returns
    stopMessage: Option<string>, // what the current activity's mayStop() returns
    confirmed: bool,             // the user's answer to the confirm dialog showing that message
    nextAccepts: bool,           // the new activity's isDelegable(place)
    nextDelegates: bool          // what the new activity's delegate(bus, command) returns; never read, kept only to state that it is ignored
  )

  /** One call the manager makes on a collaborator that changes or triggers
      something, as kept in its call log; pure queries (the previous place,
      the mapper, isDelegable, mayStop) are not logged. */
  datatype Event<C> =
    | Delegate(target: Activity, place: Place)   // DelegableActivity.delegate
    | Confirm(message: string)                   // the confirm dialog
    | Stop(target: Activity)                     // Activity.onStop
    | RemoveHandlers                             // the scoped event bus drops its handlers
    | SetEventBus(target: Activity)              // HasEventBus.setEventBus
    | Start(target: Activity, panel: Option<C>)  // Activity.onStart(panel)
    | RouterStart(target: Activity)              // HasCommandRouter.onStart

  /** The value of a place-change command: the target place, whether it is
      a redirect, and whether it has been silenced or cancelled. */
  datatype Command = Command(place: Place, redirected: bool, silenced: bool, cancelled: bool)

  /** A place-change command: the manager silences and cancels it in place. */
  class PlaceChangeCommand {
    const value: Place
    const redirected: bool
    var silenced: bool
    var cancelled: bool

    constructor (value: Place, redirected: bool)
      ensures this.value == value && this.redirected == redirected
      ensures !silenced && !cancelled
    {
      this.value := value;
      this.redirected := redirected;
      silenced, cancelled := false, false;
    }

    /** The command as a value. */
    function Snapshot(): Command
      reads this
    {
      Command(value, redirected, silenced, cancelled)
    }

    method Silence()
      modifies this`silenced
      ensures silenced
    {
      silenced := true;
    }

    method Cancel()
      modifies this`cancelled
      ensures cancelled
    {
      cancelled := true;
    }
  }
}
