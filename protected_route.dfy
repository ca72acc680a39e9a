/** The authentication gate wrapped around protected pages: a session cell
    that starts unknown, is overwritten by the initial lookup and by every
    auth-state event, and decides what the gate renders. */
module ProtectedRoute {
  import opened Wrappers

  /** The `session` cell: `undefined` while unknown, `null` when signed out,
      or a session. `S` stands for the auth service's session object. */
  datatype SessionCell<S> = Undefined | Null | Signed(session: S)

  /** What the gate renders. */
  datatype Outcome = RenderNothing | Redirect(to: string, replace: bool) | RenderChildren

  /** `setSession(session)` with a value the auth service delivers: a session
      or `null`, never `undefined`. */
  function Deliver<S>(s: Option<S>): (cell: SessionCell<S>)
    ensures !cell.Undefined?
    ensures cell.Null? <==> s.None?
    ensures cell.Signed? ==> s == Some(cell.session)
  {
    match s
    case None => Null
    case Some(x) => Signed(x)
  }

  /** The render decision: nothing while unknown, a replacing redirect to
      `/login` when signed out, the children when signed in. */
  function Decide<S>(cell: SessionCell<S>): (o: Outcome)
    ensures o.RenderNothing? <==> cell.Undefined?
    ensures o.Redirect? <==> cell.Null?
    ensures o.RenderChildren? <==> cell.Signed?
    ensures o.Redirect? ==> o.to == "/login" && o.replace
  {
    match cell
    case Undefined => RenderNothing
    case Null => Redirect("/login", true)
    case Signed(_) => RenderChildren
  }

  /** The cell after a run of deliveries, oldest first, each overwriting the last. */
  function Replay<S>(cell: SessionCell<S>, deliveries: seq<Option<S>>): SessionCell<S>
    decreases |deliveries|
  {
    if deliveries == [] then cell
    else Replay(Deliver(deliveries[0]), deliveries[1..])
  }

  /** The last delivery wins, whatever came before it. */
  lemma {:induction false} LastDeliveryWins<S>(cell: SessionCell<S>, deliveries: seq<Option<S>>)
    requires deliveries != []
    ensures Replay(cell, deliveries) == Deliver(deliveries[|deliveries| - 1])
    decreases |deliveries|
  {
    if |deliveries| > 1 {
      LastDeliveryWins(Deliver(deliveries[0]), deliveries[1..]);
    }
  }

  /** After any delivery the gate has settled on a redirect or on the
      children, and it is the children exactly when the last delivery
      carried a session. */
  lemma SettledAfterDelivery<S>(cell: SessionCell<S>, deliveries: seq<Option<S>>)
    requires deliveries != []
    ensures Decide(Replay(cell, deliveries)) != RenderNothing
    ensures Decide(Replay(cell, deliveries)).RenderChildren? <==> deliveries[|deliveries| - 1].Some?
  {
    LastDeliveryWins(cell, deliveries);
  }

  /** No delivery yet: the gate renders nothing. */
  lemma NothingBeforeDelivery<S>()
    ensures Decide(Replay<S>(Undefined, [])) == RenderNothing
  {
  }

  /** The gate component's state: the session cell, whether the effect's
      session lookup is still outstanding, and whether its auth-state
      subscription is live. */
  class Gate<S> {
    var session: SessionCell<S>
    var lookupPending: bool
    var subscribed: bool

    /** `useState(undefined)`, before the effect has run. */
    constructor ()
      ensures session.Undefined? && !lookupPending && !subscribed
    {
      session := Undefined;
      lookupPending := false;
      subscribed := false;
    }

    /** The effect: starts the one session lookup and subscribes to auth-state events. */
    method Mount()
      modifies this
      ensures lookupPending && subscribed && session == old(session)
    {
      lookupPending := true;
      subscribed := true;
    }

    /** The `getSession()` callback, once the effect's lookup resolves:
        overwrites the cell with the looked-up value. */
    method SessionLoaded(s: Option<S>)
      requires lookupPending
      modifies this
      ensures session == Deliver(s) && !lookupPending && subscribed == old(subscribed)
    {
      session := Deliver(s);
      lookupPending := false;
    }

    /** The `onAuthStateChange` listener: overwrites the cell while subscribed;
        once released it is no longer called. */
    method AuthStateChanged(s: Option<S>)
      modifies this
      ensures session == if old(subscribed) then Deliver(s) else old(session)
      ensures subscribed == old(subscribed) && lookupPending == old(lookupPending)
    {
      if subscribed {
        session := Deliver(s);
      }
    }

    /** The effect's cleanup: `subscription.unsubscribe()`. */
    method Unmount()
      modifies this
      ensures !subscribed && session == old(session) && lookupPending == old(lookupPending)
    {
      subscribed := false;
    }

    /** What the gate renders now. */
    function Render(): (o: Outcome)
      reads this
      ensures o.RenderNothing? <==> session.Undefined?
      ensures o.Redirect? <==> session.Null?
      ensures o.RenderChildren? <==> session.Signed?
      ensures o.Redirect? ==> o.to == "/login" && o.replace
    {
      Decide(session)
    }
  }
}
