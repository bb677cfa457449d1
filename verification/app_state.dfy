/** The connectivity state machine (data/ApplicationStateSource.kt).

    The source holds one of four states and two ordered lists of registered
    actions. Entering Connecting runs the connecting actions, entering Syncing
    runs the syncing actions; each list runs in registration order and stops at
    the first action that reports failure. Network reachability, the outcome of
    each action and the observer's events are inputs.

    Actions are values of any type `A` with equality (the code compares lambdas
    by identity when removing them). One pass over a list is given a verdict per
    action; an action registered twice reports the same outcome on both runs of
    one pass.
 */
module AppState {

  datatype ApplicationState = WaitingForNetwork | Connecting | Syncing | Ready

  /** What the network connection observer reports. */
  datatype Status = Connected | Disconnected

  datatype Source<A> = Source(
    state: ApplicationState,
    connectingActions: seq<A>,
    syncingActions: seq<A>)

  /** A fresh source: waiting for the network, nothing registered. */
  function Initial<A>(): (s: Source<A>)
    ensures s.state == WaitingForNetwork
    ensures s.connectingActions == [] && s.syncingActions == []
  {
    Source(WaitingForNetwork, [], [])
  }

  /** The observer's event forces the state, whatever it was. */
  function OnStatus<A>(s: Source<A>, status: Status): (r: Source<A>)
    ensures r.state == Connecting <==> status == Connected
    ensures r.state == WaitingForNetwork <==> status == Disconnected
    ensures r.connectingActions == s.connectingActions && r.syncingActions == s.syncingActions
  {
    match status
    case Connected => s.(state := Connecting)
    case Disconnected => s.(state := WaitingForNetwork)
  }

  /** `restart()`: re-evaluate reachability without waiting for an event. */
  function Restart<A>(s: Source<A>, netAvailable: bool): (r: Source<A>)
    ensures r.state == Connecting <==> netAvailable
    ensures r.state == WaitingForNetwork <==> !netAvailable
    ensures r.connectingActions == s.connectingActions && r.syncingActions == s.syncingActions
  {
    s.(state := if netAvailable then Connecting else WaitingForNetwork)
  }

  /** `defaultOnErrorAction`: retry if the network was there when the error was
      handled, otherwise wait for it. Reachability is read before the back-off
      delay starts, so a change during the delay is not seen. The state that
      failed plays no part. */
  function DefaultOnErrorAction(netAvailable: bool, appState: ApplicationState): (r: ApplicationState)
    ensures r == Connecting || r == WaitingForNetwork
    ensures r == Connecting <==> netAvailable
  {
    if netAvailable then Connecting else WaitingForNetwork
  }

  /** Every action of the list reports success. */
  predicate AllSucceed<A>(actions: seq<A>, verdict: A -> bool) {
    forall i :: 0 <= i < |actions| ==> verdict(actions[i])
  }

  /** `doConnectingActions` / `doSyncingActions`: run the actions in order and
      stop at the first failure. `invoked` counts the actions that ran. */
  method DoActions<A>(actions: seq<A>, verdict: A -> bool) returns (ok: bool, invoked: nat)
    ensures invoked <= |actions|
    ensures ok <==> AllSucceed(actions, verdict)
    ensures ok ==> invoked == |actions|
    ensures !ok ==> 0 < invoked && !verdict(actions[invoked - 1])
    ensures forall i :: 0 <= i < invoked - 1 ==> verdict(actions[i])
  {
    invoked := 0;
    while invoked < |actions|
      invariant invoked <= |actions|
      invariant forall i :: 0 <= i < invoked ==> verdict(actions[i])
    {
      var action := actions[invoked];
      invoked := invoked + 1;
      if !verdict(action) {
        return false, invoked;
      }
    }
    return true, invoked;
  }

  /** The collector's reaction to the state it has just observed. */
  function OnStateCollected<A>(s: Source<A>, netAvailable: bool, verdict: A -> bool): (r: Source<A>)
    ensures r.connectingActions == s.connectingActions && r.syncingActions == s.syncingActions
    ensures s.state == Connecting ==>
      r.state == (if AllSucceed(s.connectingActions, verdict) then Syncing
                  else DefaultOnErrorAction(netAvailable, Connecting))
    ensures s.state == Syncing ==>
      r.state == (if AllSucceed(s.syncingActions, verdict) then Ready
                  else DefaultOnErrorAction(netAvailable, Syncing))
    ensures s.state == WaitingForNetwork || s.state == Ready ==> r == s
  {
    match s.state
    case Connecting =>
      if AllSucceed(s.connectingActions, verdict) then s.(state := Syncing)
      else s.(state := DefaultOnErrorAction(netAvailable, s.state))
    case Syncing =>
      if AllSucceed(s.syncingActions, verdict) then s.(state := Ready)
      else s.(state := DefaultOnErrorAction(netAvailable, s.state))
    case _ => s
  }

  /** The position of the first occurrence of `x`. */
  function IndexOf<A(==)>(xs: seq<A>, x: A): (i: nat)
    requires x in xs
    ensures i < |xs| && xs[i] == x && x !in xs[..i]
  {
    if xs[0] == x then 0
    else
      var i := IndexOf(xs[1..], x);
      assert xs[..i + 1] == [xs[0]] + xs[1..][..i];
      i + 1
  }

  /** Kotlin's `MutableList.remove(element)`: drop the first occurrence, if any,
      and keep the order of the rest. */
  function RemoveFirst<A(==)>(xs: seq<A>, x: A): (r: seq<A>)
    ensures x !in xs ==> r == xs
    ensures x in xs ==> r == xs[..IndexOf(xs, x)] + xs[IndexOf(xs, x) + 1..]
    ensures multiset(r) == multiset(xs) - multiset{x}
  {
    if x in xs then
      var i := IndexOf(xs, x);
      assert xs == xs[..i] + [x] + xs[i + 1..];
      xs[..i] + xs[i + 1..]
    else xs
  }

  function AddConnectingAction<A>(s: Source<A>, action: A): (r: Source<A>)
    ensures r.connectingActions == s.connectingActions + [action]
    ensures r.state == s.state && r.syncingActions == s.syncingActions
  {
    s.(connectingActions := s.connectingActions + [action])
  }

  function RemoveConnectingAction<A(==)>(s: Source<A>, action: A): (r: Source<A>)
    ensures multiset(r.connectingActions) == multiset(s.connectingActions) - multiset{action}
    ensures r.state == s.state && r.syncingActions == s.syncingActions
  {
    s.(connectingActions := RemoveFirst(s.connectingActions, action))
  }

  function AddSyncingAction<A>(s: Source<A>, action: A): (r: Source<A>)
    ensures r.syncingActions == s.syncingActions + [action]
    ensures r.state == s.state && r.connectingActions == s.connectingActions
  {
    s.(syncingActions := s.syncingActions + [action])
  }

  function RemoveSyncingAction<A(==)>(s: Source<A>, action: A): (r: Source<A>)
    ensures multiset(r.syncingActions) == multiset(s.syncingActions) - multiset{action}
    ensures r.state == s.state && r.connectingActions == s.connectingActions
  {
    s.(syncingActions := RemoveFirst(s.syncingActions, action))
  }

  /** Removing an action just added restores the list when that action was not
      registered before. */
  lemma AddThenRemoveRestores<A>(s: Source<A>, action: A)
    requires action !in s.connectingActions
    ensures RemoveConnectingAction(AddConnectingAction(s, action), action) == s
  {
    var xs := s.connectingActions + [action];
    assert IndexOf(xs, action) == |s.connectingActions| by {
      assert action !in xs[..|s.connectingActions|];
    }
    assert xs[..|s.connectingActions|] == s.connectingActions;
  }

  /** Everything that can happen to the source once it is started. */
  datatype Event<!A> =
    | Observed(status: Status)
    | RestartRequested(netAvailable: bool)
    | Collected(netAvailable: bool, verdict: A -> bool)

  function Step<A>(s: Source<A>, e: Event<A>): Source<A> {
    match e
    case Observed(status) => OnStatus(s, status)
    case RestartRequested(net) => Restart(s, net)
    case Collected(net, verdict) => OnStateCollected(s, net, verdict)
  }

  function Run<A>(s: Source<A>, es: seq<Event<A>>): Source<A>
    decreases |es|
  {
    if |es| == 0 then s else Run(Step(s, es[0]), es[1..])
  }

  /** Syncing is entered only from Connecting once every connecting action has
      succeeded or by nothing at all; Ready only from Syncing once every syncing
      action has succeeded, or by staying Ready. */
  lemma StepIntoSyncingOrReady<A>(s: Source<A>, e: Event<A>)
    ensures Step(s, e).state == Syncing ==>
      s.state == Connecting && e.Collected? && AllSucceed(s.connectingActions, e.verdict)
    ensures Step(s, e).state == Ready ==>
      (s.state == Syncing && e.Collected? && AllSucceed(s.syncingActions, e.verdict))
      || (s.state == Ready && e.Collected?)
  {
  }

  /** An event that can move the source off WaitingForNetwork. */
  predicate BringsNetwork<A>(e: Event<A>) {
    (e.Observed? && e.status == Connected) || (e.RestartRequested? && e.netAvailable)
  }

  /** Without a Connected event or a restart that finds the network, a source
      that waits for the network keeps waiting, whatever else happens. */
  lemma {:induction false} OfflineStaysWaiting<A>(s: Source<A>, es: seq<Event<A>>)
    requires s.state == WaitingForNetwork
    requires forall i :: 0 <= i < |es| ==> !BringsNetwork(es[i])
    ensures Run(s, es).state == WaitingForNetwork
    decreases |es|
  {
    if |es| > 0 {
      assert !BringsNetwork(es[0]);
      OfflineStaysWaiting(Step(s, es[0]), es[1..]);
    }
  }

  /** Running events never touches the registered actions. */
  lemma {:induction false} RunKeepsActions<A>(s: Source<A>, es: seq<Event<A>>)
    ensures Run(s, es).connectingActions == s.connectingActions
    ensures Run(s, es).syncingActions == s.syncingActions
    decreases |es|
  {
    if |es| > 0 {
      RunKeepsActions(Step(s, es[0]), es[1..]);
    }
  }
}
