/** Component start, recovery and teardown, and the lifecycle events they emit. */
module NodeRuntime {
  import opened Prelude
  import opened Lifecycle

  /** LIFECYCLE_EVENT_QUEUE_CAPACITY */
  const EVENT_QUEUE_CAPACITY: nat := 1024

  /** The five component kinds behave alike; they differ in name and in which faults are injected. */
  datatype Component = Component(state: State, failOnStart: bool, failOnRecover: bool)

  /** Who an event is about.  A component is known by its position. */
  datatype Source = Node | Part(index: nat)

  datatype Event = Event(source: Source, previous: State, next: State)

  /** Following the events of one source from a state: where they lead, or `None` if an event starts elsewhere. */
  function Follow(events: seq<Event>, source: Source, from: State): Option<State> {
    if events == [] then Some(from)
    else
      var before, e := Follow(events[..|events| - 1], source, from), events[|events| - 1];
      if e.source != source then before
      else if before.Some? && before.value == e.previous then Some(e.next)
      else None
  }

  /** The events of component i lead from the state it was given in to the state it is in. */
  ghost predicate InStep(events: seq<Event>, given: seq<Component>, components: seq<Component>, i: int) {
    && 0 <= i < |given| && i < |components|
    && Follow(events, Part(i), given[i].state) == Some(components[i].state)
  }

  lemma NodeEventInStep(events: seq<Event>, e: Event, given: seq<Component>, components: seq<Component>)
    requires e.source == Node && |given| == |components|
    requires forall i {:trigger InStep(events, given, components, i)} :: 0 <= i < |components| ==>
               InStep(events, given, components, i)
    ensures forall i {:trigger InStep(events + [e], given, components, i)} :: 0 <= i < |components| ==>
              InStep(events + [e], given, components, i)
  {
    forall i | 0 <= i < |components| ensures InStep(events + [e], given, components, i) {
      assert InStep(events, given, components, i);
      FollowOne(events, e, Part(i), given[i].state);
    }
  }

  lemma MoveInStep(events: seq<Event>, given: seq<Component>, components: seq<Component>, k: nat, next: State)
    requires |given| == |components| && k < |components|
    requires forall i {:trigger InStep(events, given, components, i)} :: 0 <= i < |components| ==>
               InStep(events, given, components, i)
    ensures var e := Event(Part(k), components[k].state, next);
            var moved := components[k := components[k].(state := next)];
            forall i {:trigger InStep(events + [e], given, moved, i)} :: 0 <= i < |components| ==>
              InStep(events + [e], given, moved, i)
  {
    var e, moved := Event(Part(k), components[k].state, next), components[k := components[k].(state := next)];
    forall i | 0 <= i < |components| ensures InStep(events + [e], given, moved, i) {
      assert InStep(events, given, components, i);
      FollowOne(events, e, Part(i), given[i].state);
    }
  }

  lemma FollowOne(events: seq<Event>, e: Event, source: Source, from: State)
    ensures Follow(events + [e], source, from)
         == var before := Follow(events, source, from);
            if e.source != source then before
            else if before.Some? && before.value == e.previous then Some(e.next) else None
  {
    assert (events + [e])[..|events|] == events;
  }

  /** n-1, n-2, ..., 0 */
  function Descending(n: nat): (s: seq<nat>)
    ensures |s| == n && forall i :: 0 <= i < n ==> s[i] == n - 1 - i
  {
    if n == 0 then [] else [n - 1] + Descending(n - 1)
  }

  /** The events of the first n components moving to a state in order. */
  function Forward(cs: seq<Component>, n: nat, next: State): (events: seq<Event>)
    requires n <= |cs|
    ensures |events| == n
  {
    seq(n, i requires 0 <= i < n => Event(Part(i), cs[i].state, next))
  }

  /** The events of the first n components stopping in reverse order. */
  function Backward(cs: seq<Component>, n: nat): (events: seq<Event>)
    requires n <= |cs|
    ensures |events| == n
  {
    seq(n, i requires 0 <= i < n => Event(Part(n - 1 - i), cs[n - 1 - i].state, Stopped))
  }

  lemma ForwardNext(cs: seq<Component>, k: nat, next: State)
    requires k < |cs|
    ensures Forward(cs, k + 1, next) == Forward(cs, k, next) + [Event(Part(k), cs[k].state, next)]
  {
  }

  /** Component k is the next to stop. */
  lemma BackwardNext(cs: seq<Component>, n: nat, k: nat)
    requires k < n <= |cs|
    ensures Backward(cs, n)[..n - k] == Backward(cs, n)[..n - k - 1] + [Event(Part(k), cs[k].state, Stopped)]
  {
  }

  /** The components all in one state. */
  function InState(cs: seq<Component>, state: State): (r: seq<Component>)
    ensures |r| == |cs|
  {
    seq(|cs|, i requires 0 <= i < |cs| => cs[i].(state := state))
  }

  function Min(a: nat, b: nat): nat { if a < b then a else b }

  /** The first component that fails to start, or the number of components. */
  function FirstStartFailure(cs: seq<Component>): (k: nat)
    ensures k <= |cs| && (k < |cs| ==> cs[k].failOnStart) && forall i :: 0 <= i < k ==> !cs[i].failOnStart
  {
    if cs == [] then 0 else if cs[0].failOnStart then 0
    else
      var k := FirstStartFailure(cs[1..]);
      assert forall i :: 1 <= i < |cs| ==> cs[i] == cs[1..][i - 1];
      k + 1
  }

  /** The first component that fails to recover, or the number of components. */
  function FirstRecoverFailure(cs: seq<Component>): (k: nat)
    ensures k <= |cs| && (k < |cs| ==> cs[k].failOnRecover) && forall i :: 0 <= i < k ==> !cs[i].failOnRecover
  {
    if cs == [] then 0 else if cs[0].failOnRecover then 0
    else
      var k := FirstRecoverFailure(cs[1..]);
      assert forall i :: 1 <= i < |cs| ==> cs[i] == cs[1..][i - 1];
      k + 1
  }

  class NodeRuntime {
    var components: seq<Component>
    var tracker: State
    var queue: seq<Event>
    /** Every event sent, and every stop issued, since construction. */
    ghost var sent: seq<Event>
    ghost var stops: seq<nat>
    /** The components as they were given. */
    ghost const given: seq<Component>

    /** Nobody has received from the queue yet, so it holds the first events up to its capacity; and the events of each
        component lead from the state it was given in to the state it is in. */
    ghost predicate Valid()
      reads this
    {
      && queue == sent[..Min(|sent|, EVENT_QUEUE_CAPACITY)]
      && |given| == |components|
      && forall i {:trigger InStep(sent, given, components, i)} :: 0 <= i < |components| ==>
           InStep(sent, given, components, i)
    }

    /** Same components, apart from their states. */
    ghost predicate SameParts(cs: seq<Component>)
      reads this
    {
      |components| == |cs| && forall i :: 0 <= i < |cs| ==> components[i] == cs[i].(state := components[i].state)
    }

    /** Where the node's own events lead. */
    ghost function NodeChain(): Option<State>
      reads this`sent
    {
      Follow(sent, Node, Created)
    }

    constructor (parts: seq<Component>)
      ensures Valid() && Untouched() && components == parts && given == parts && tracker == Created && sent == []
          && stops == []
    {
      given := parts;
      components, tracker, queue, sent, stops := parts, Created, [], [], [];
    }

    /** `send_event`: dropped without notice when the queue is full. */
    method SendNodeEvent(previous: State, next: State)
      requires Valid()
      modifies this`queue, this`sent
      ensures Valid() && sent == old(sent) + [Event(Node, previous, next)]
    {
      NodeEventInStep(sent, Event(Node, previous, next), given, components);
      if |queue| < EVENT_QUEUE_CAPACITY {
        queue := queue + [Event(Node, previous, next)];
      }
      sent := sent + [Event(Node, previous, next)];
    }

    /** A component call that moves component `i` to `next`, and the event reporting it. */
    method Move(i: nat, next: State)
      requires Valid() && i < |components|
      modifies this`components, this`queue, this`sent
      ensures Valid() && components == old(components)[i := old(components)[i].(state := next)]
      ensures sent == old(sent) + [Event(Part(i), old(components)[i].state, next)]
      ensures NodeChain() == old(NodeChain())
    {
      var e := Event(Part(i), components[i].state, next);
      FollowOne(sent, e, Node, Created);
      MoveInStep(sent, given, components, i, next);
      components := components[i := components[i].(state := next)];
      if |queue| < EVENT_QUEUE_CAPACITY {
        queue := queue + [e];
      }
      sent := sent + [e];
    }

    /** Stopping the first `n` components in reverse start order. */
    method TearDown(n: nat)
      requires Valid() && n <= |components|
      modifies this`components, this`queue, this`sent, this`stops
      ensures Valid() && SameParts(old(components))
      ensures forall i :: 0 <= i < |components| ==>
          components[i].state == if i < n then Stopped else old(components)[i].state
      ensures stops == old(stops) + Descending(n)
      ensures sent == old(sent) + Backward(old(components), n) && NodeChain() == old(NodeChain())
    {
      var k := n;
      while k > 0
        invariant 0 <= k <= n && Valid() && SameParts(old(components))
        invariant forall i :: 0 <= i < |components| ==>
            components[i].state == if k <= i < n then Stopped else old(components)[i].state
        invariant stops + Descending(k) == old(stops) + Descending(n)
        invariant sent == old(sent) + Backward(old(components), n)[..n - k] && NodeChain() == old(NodeChain())
      {
        BackwardNext(old(components), n, k - 1);
        Move(k - 1, Stopped);
        stops := stops + [k - 1];
        k := k - 1;
      }
      assert Backward(old(components), n)[..n] == Backward(old(components), n);
    }

    /** Starting the components in order, up to the first that fails; the later ones are not touched. */
    method StartComponents() returns (started: nat)
      requires Valid()
      modifies this`components, this`queue, this`sent
      ensures Valid() && SameParts(old(components)) && started == FirstStartFailure(old(components))
      ensures forall i :: 0 <= i < |components| ==>
                components[i].state ==
                  if i < started then Starting else if i == started then Fatal else old(components)[i].state
      ensures sent == old(sent) + Forward(old(components), started, Starting)
                + if started < |components| then [Event(Part(started), old(components)[started].state, Fatal)] else []
      ensures NodeChain() == old(NodeChain())
    {
      started := 0;
      while started < |components|
        invariant 0 <= started <= |components| && Valid() && SameParts(old(components))
        invariant forall i :: 0 <= i < |components| ==>
                    components[i].state == if i < started then Starting else old(components)[i].state
        invariant forall i :: 0 <= i < started ==> !components[i].failOnStart
        invariant sent == old(sent) + Forward(old(components), started, Starting)
        invariant NodeChain() == old(NodeChain())
      {
        var next := if components[started].failOnStart then Fatal else Starting;
        ForwardNext(old(components), started, Starting);
        Move(started, next);
        if components[started].failOnStart {
          return;
        }
        started := started + 1;
      }
    }

    /** Recovering the components in order, up to the first that fails; the later ones are not touched. */
    method RecoverComponents() returns (recovered: nat)
      requires Valid()
      modifies this`components, this`queue, this`sent
      ensures Valid() && SameParts(old(components)) && recovered == FirstRecoverFailure(old(components))
      ensures forall i :: 0 <= i < |components| ==>
                components[i].state ==
                  if i < recovered then Ready else if i == recovered then Fatal else old(components)[i].state
      ensures sent == old(sent) + Forward(old(components), recovered, Ready)
                + if recovered < |components| then [Event(Part(recovered), old(components)[recovered].state, Fatal)]
                  else []
      ensures NodeChain() == old(NodeChain())
    {
      recovered := 0;
      while recovered < |components|
        invariant 0 <= recovered <= |components| && Valid() && SameParts(old(components))
        invariant forall i :: 0 <= i < |components| ==>
                    components[i].state == if i < recovered then Ready else old(components)[i].state
        invariant forall i :: 0 <= i < recovered ==> !components[i].failOnRecover
        invariant sent == old(sent) + Forward(old(components), recovered, Ready)
        invariant NodeChain() == old(NodeChain())
      {
        var next := if components[recovered].failOnRecover then Fatal else Ready;
        ForwardNext(old(components), recovered, Ready);
        Move(recovered, next);
        if components[recovered].failOnRecover {
          return;
        }
        recovered := recovered + 1;
      }
    }

    /** The tracker's checked transition, ignored when it is not legal, and the event that is sent all the same.
        During `start` it is always legal. */
    method EnterAnyway(next: State)
      requires Valid()
      modifies this`tracker, this`queue, this`sent
      ensures Valid() && tracker == (if CanTransition(old(tracker), next) then next else old(tracker))
      ensures sent == old(sent) + [Event(Node, old(tracker), next)]
      ensures NodeChain() == if old(NodeChain()) == Some(old(tracker)) then Some(next) else None
    {
      var previous := tracker;
      if CanTransition(tracker, next) {
        tracker := next;
      }
      FollowOne(sent, Event(Node, previous, next), Node, Created);
      SendNodeEvent(previous, next);
    }

    /** Until the node is started, its own events have led nowhere. */
    ghost predicate Untouched()
      reads this
    {
      tracker == Created ==> NodeChain() == Some(Created)
    }

    /** After a failure the node is fatal and its first n components are stopped. */
    method GiveUp(n: nat)
      requires Valid() && n <= |components|
      modifies this
      ensures Valid() && SameParts(old(components)) && tracker == Fatal
      ensures forall i :: 0 <= i < |components| ==>
          components[i].state == if i < n then Stopped else old(components)[i].state
      ensures stops == old(stops) + Descending(n)
      ensures sent == old(sent) + Backward(old(components), n) && NodeChain() == old(NodeChain())
    {
      tracker := Fatal;
      TearDown(n);
    }

    /** The first phase of `start`.  A failure at `k` stops the components before it in reverse order. */
    method StartPhase() returns (ok: bool)
      requires Valid() && Untouched() && tracker == Created
      modifies this
      ensures Valid() && SameParts(old(components)) && ok == (FirstStartFailure(old(components)) == |components|)
      ensures tracker == (if ok then Starting else Fatal) && NodeChain() == Some(Starting)
      ensures var k := FirstStartFailure(old(components));
              && (forall i :: 0 <= i < |components| ==>
                    components[i].state ==
                      if ok then Starting else if i < k then Stopped
                      else if i == k then Fatal else old(components)[i].state)
              && stops == old(stops) + (if ok then [] else Descending(k))
      ensures ok ==> sent == old(sent) + [Event(Node, Created, Starting)]
                             + Forward(old(components), |components|, Starting)
      ensures !ok ==> var k := FirstStartFailure(old(components));
                      sent == old(sent) + [Event(Node, Created, Starting)] + Forward(old(components), k, Starting)
                              + [Event(Part(k), old(components)[k].state, Fatal)]
                              + Backward(InState(old(components), Starting), k)
    {
      EnterAnyway(Starting);
      var started := StartComponents();
      ok := started == |components|;
      if !ok {
        GiveUp(started);
      }
    }

    /** The second phase of `start`.  Any failure stops all components in reverse order. */
    method RecoverPhase() returns (ok: bool)
      requires Valid() && tracker == Starting && NodeChain() == Some(Starting)
      modifies this
      ensures Valid() && SameParts(old(components)) && ok == (FirstRecoverFailure(old(components)) == |components|)
      ensures tracker == (if ok then Ready else Fatal) && NodeChain() == Some(if ok then Ready else Recovering)
      ensures forall i :: 0 <= i < |components| ==> components[i].state == if ok then Ready else Stopped
      ensures stops == old(stops) + (if ok then [] else Descending(|components|))
      ensures ok ==> sent == old(sent) + [Event(Node, Starting, Recovering)]
                             + Forward(old(components), |components|, Ready) + [Event(Node, Recovering, Ready)]
    {
      EnterAnyway(Recovering);
      var recovered := RecoverComponents();
      ok := recovered == |components|;
      if ok {
        EnterAnyway(Ready);
      } else {
        GiveUp(|components|);
      }
    }

    /** `start`, for every list of components and every pattern of failures.  A node that is not `Created` is refused
        unchanged. A start failure at `k` leaves the components before `k` stopped, `k` fatal and the later ones
        untouched; a recovery failure leaves all of them stopped; stops are issued once each in reverse start order.
        The node's own events end in its actual state exactly on success. */
    method Start() returns (ok: bool)
      requires Valid() && Untouched()
      modifies this
      ensures Valid() && Untouched() && SameParts(old(components))
      ensures old(tracker) != Created ==>
                !ok && tracker == old(tracker) && components == old(components) && sent == old(sent)
                    && stops == old(stops)
      ensures old(tracker) == Created ==>
                var k, n := FirstStartFailure(old(components)), |components|;
                && ok == (k == n && FirstRecoverFailure(old(components)) == n)
                && tracker == (if ok then Ready else Fatal)
                && (forall i :: 0 <= i < n ==>
                      components[i].state ==
                        if ok then Ready else if k == n || i < k then Stopped
                        else if i == k then Fatal else old(components)[i].state)
                && stops == old(stops) + (if ok then [] else Descending(k))
                && (NodeChain() == Some(tracker) <==> ok)
      ensures ok ==> |sent| == |old(sent)| + 2 * |components| + 3
      ensures ok ==> sent == old(sent) + [Event(Node, Created, Starting)]
                             + Forward(old(components), |components|, Starting) + [Event(Node, Starting, Recovering)]
                             + Forward(InState(old(components), Starting), |components|, Ready)
                             + [Event(Node, Recovering, Ready)]
    {
      if !CanTransition(tracker, Starting) {
        return false;
      }
      ok := StartPhase();
      if ok {
        ok := RecoverPhase();
      }
    }

    method DrainComponents()
      requires Valid()
      modifies this`components, this`queue, this`sent
      ensures Valid() && components == InState(old(components), Draining)
      ensures sent == old(sent) + Forward(old(components), |components|, Draining)
      ensures NodeChain() == old(NodeChain())
    {
      var k := 0;
      while k < |components|
        invariant 0 <= k <= |components| && Valid() && SameParts(old(components))
        invariant forall i :: 0 <= i < |components| ==>
            components[i].state == if i < k then Draining else old(components)[i].state
        invariant sent == old(sent) + Forward(old(components), k, Draining)
        invariant NodeChain() == old(NodeChain())
      {
        ForwardNext(old(components), k, Draining);
        Move(k, Draining);
        k := k + 1;
      }
    }

    /** `shutdown`: whatever the state, every component ends stopped, in reverse order, and so does the node.  The
        node's own events form an unbroken chain exactly when they were in step with the tracker and it was `Ready` or
        `Draining`. */
    method Shutdown()
      requires Valid()
      modifies this
      ensures Valid() && Untouched() && SameParts(old(components)) && tracker == Stopped
      ensures forall i :: 0 <= i < |components| ==> components[i].state == Stopped
      ensures stops == old(stops) + Descending(|components|)
      ensures |sent| == |old(sent)| + 2 * |components| + 3
      ensures var drained := if old(tracker) == Ready then Draining else old(tracker);
              var stopping := if drained == Draining then Stopping else drained;
              sent == old(sent) + [Event(Node, old(tracker), Draining)]
                      + Forward(old(components), |components|, Draining) + [Event(Node, drained, Stopping)]
                      + Backward(InState(old(components), Draining), |components|)
                      + [Event(Node, stopping, Stopped)]
      ensures NodeChain() == Some(Stopped) <==>
                old(NodeChain()) == Some(old(tracker)) && (old(tracker) == Ready || old(tracker) == Draining)
    {
      EnterAnyway(Draining);
      DrainComponents();
      EnterAnyway(Stopping);
      TearDown(|components|);
      EnterAnyway(Stopped);
      tracker := Stopped;
    }
  }

  /** A full start and shutdown of `n` healthy components emits 4n + 6 events, and the queue drops none of them
      exactly when there are at most 254 components. */
  method FullRun(parts: seq<Component>) returns (node: NodeRuntime)
    requires forall i :: 0 <= i < |parts| ==> !parts[i].failOnStart && !parts[i].failOnRecover
    ensures node.Valid() && node.tracker == Stopped && node.SameParts(parts)
    ensures forall i :: 0 <= i < |parts| ==> node.components[i].state == Stopped
    ensures node.stops == Descending(|parts|) && |node.sent| == 4 * |parts| + 6
    ensures node.queue == node.sent <==> |parts| <= 254
    ensures node.NodeChain() == Some(Stopped)
  {
    node := new NodeRuntime(parts);
    var ok := node.Start();
    assert ok;
    node.Shutdown();
  }
}
