/** The subscriber table of internal/api/site_favicon_manager.go. A read-write
    mutex guards the table, but a removed channel is closed only after the lock is
    released, and identifiers are drawn before it is taken; a broadcast holds the
    read lock from its first send to its last. */
module FaviconSubscribers {
  import opened Basics
  import opened Channels

  /** The worker's broadcast in progress: the subscribers it has still to reach. */
  datatype Sending<T> = Quiet | Sending(event: T, todo: set<nat>)

  datatype State<T> = State(
    nextSubscriberID: nat,
    opening: set<nat>,      // identifiers drawn, not yet in the table
    subscribers: set<nat>,  // the table
    removing: set<nat>,     // taken out of the table, channel not yet closed
    spent: set<nat>,        // subscriptions whose Close has begun
    channels: map<nat, Channel<T>>,
    sending: Sending<T>,
    panicked: bool)         // a send on a closed channel, or a second close

  datatype Step<T> =
    | DrawIdentifier
    | Insert(id: nat)
    | BeginBroadcast(event: T)
    | SendTo(id: nat)
    | EndBroadcast
    | Remove(id: nat)
    | CloseRemoved(id: nat)
    | CloseSubscribers
    | Receive(id: nat)

  function Initial<T>(): State<T> {
    State(0, {}, {}, {}, {}, map[], Quiet, false)
  }

  /** Writers of the table wait for the broadcast in progress. */
  predicate Enabled<T>(s: State<T>, step: Step<T>) {
    match step
    case DrawIdentifier => true
    case Insert(id) => id in s.opening && s.sending.Quiet?
    case BeginBroadcast(_) => s.sending.Quiet?
    case SendTo(id) => s.sending.Sending? && id in s.sending.todo && id in s.channels
    case EndBroadcast => s.sending.Sending? && s.sending.todo == {}
    case Remove(id) => id in s.channels && id !in s.opening && s.sending.Quiet?
    case CloseRemoved(id) => id in s.removing && id in s.channels
    case CloseSubscribers => s.sending.Quiet?
    case Receive(id) => id in s.channels && s.channels[id].buffer != []
  }

  function Next<T>(s: State<T>, step: Step<T>): State<T>
    requires Enabled(s, step)
  {
    match step
    case DrawIdentifier =>
      var id := s.nextSubscriberID + 1;
      s.(nextSubscriberID := id, opening := s.opening + {id}, channels := s.channels[id := Channel([], [], false)])
    case Insert(id) => s.(opening := s.opening - {id}, subscribers := s.subscribers + {id})
    case BeginBroadcast(event) => s.(sending := Sending(event, s.subscribers))
    case SendTo(id) =>
      s.(sending := Sending(s.sending.event, s.sending.todo - {id}),
         channels := s.channels[id := s.channels[id].Offer(s.sending.event)],
         panicked := s.panicked || s.channels[id].closed)
    case EndBroadcast => s.(sending := Quiet)
    case Remove(id) =>
      if id in s.spent then s
      else if id !in s.subscribers then s.(spent := s.spent + {id})
      else s.(spent := s.spent + {id}, subscribers := s.subscribers - {id}, removing := s.removing + {id})
    case CloseRemoved(id) =>
      s.(removing := s.removing - {id}, channels := s.channels[id := s.channels[id].(closed := true)],
         panicked := s.panicked || s.channels[id].closed)
    case CloseSubscribers =>
      s.(subscribers := {}, channels := Shut(s.channels, s.subscribers),
         panicked := s.panicked || AnyClosed(s.channels, s.subscribers))
    case Receive(id) => s.(channels := s.channels[id := s.channels[id].Take()])
  }

  // ----------------------------------------------------------- the class

  /** The table's operations, one method for each atomic section. Every method
      keeps `Valid`, by StepKeepsValid. */
  class SubscriberTable<T> {
    var nextSubscriberID: nat
    var opening: set<nat>
    var subscribers: set<nat>
    var removing: set<nat>
    var spent: set<nat>
    var channels: map<nat, Channel<T>>
    var sending: Sending<T>
    var panicked: bool

    function Current(): State<T>
      reads this
    {
      State(nextSubscriberID, opening, subscribers, removing, spent, channels, sending, panicked)
    }

    constructor ()
      ensures Current() == Initial()
    {
      nextSubscriberID, opening, subscribers, removing, spent := 0, {}, {}, {}, {};
      channels, sending, panicked := map[], Quiet, false;
    }

    /** Subscribe, before it takes the lock. */
    method Draw() returns (id: nat)
      modifies this
      ensures Current() == Next(old(Current()), DrawIdentifier)
      ensures id == old(nextSubscriberID) + 1
    {
      nextSubscriberID := nextSubscriberID + 1;
      id := nextSubscriberID;
      channels := channels[id := Channel([], [], false)];
      opening := opening + {id};
    }

    /** Subscribe, under the lock. */
    method Register(id: nat)
      requires Enabled(Current(), Insert(id))
      modifies this
      ensures Current() == Next(old(Current()), Insert(id))
    {
      subscribers := subscribers + {id};
      opening := opening - {id};
    }

    /** broadcast, from taking the read lock to releasing it. The source lets
        readers and closers run between two sends; see the step relation. */
    method BroadcastAlone(event: T)
      requires Valid(Current()) && sending.Quiet?
      modifies this
      ensures Current() == old(Current()).(channels := Send(old(channels), old(subscribers), event))
    {
      ghost var entry := Current();
      var todo := subscribers;
      while todo != {}
        invariant todo <= subscribers
        invariant Current() == entry.(channels := Send(entry.channels, subscribers - todo, event))
        decreases todo
      {
        var id :| id in todo;
        SendOneMore(entry.channels, subscribers - todo, id, event);
        assert subscribers - (todo - {id}) == (subscribers - todo) + {id};
        channels := channels[id := channels[id].Offer(event)];
        todo := todo - {id};
      }
      assert subscribers - todo == subscribers;
    }

    /** removeSubscriber, under the lock. */
    method TakeOut(id: nat)
      requires Enabled(Current(), Remove(id))
      modifies this
      ensures Current() == Next(old(Current()), Remove(id))
    {
      if id in spent { return; }
      spent := spent + {id};
      if id in subscribers {
        subscribers := subscribers - {id};
        removing := removing + {id};
      }
    }

    /** removeSubscriber, after unlocking. */
    method CloseTakenOut(id: nat)
      requires Enabled(Current(), CloseRemoved(id))
      modifies this
      ensures Current() == Next(old(Current()), CloseRemoved(id))
    {
      panicked := panicked || channels[id].closed;
      channels := channels[id := channels[id].(closed := true)];
      removing := removing - {id};
    }

    /** closeSubscribers, the last act of Stop. */
    method CloseAll()
      requires Valid(Current()) && sending.Quiet?
      modifies this
      ensures Current() == Next(old(Current()), CloseSubscribers)
    {
      ghost var entry := Current();
      ghost var all := subscribers;
      while subscribers != {}
        invariant subscribers <= all
        invariant channels == Shut(entry.channels, all - subscribers)
        invariant panicked == (entry.panicked || AnyClosed(entry.channels, all - subscribers))
        invariant Current() == entry.(subscribers := subscribers, channels := channels, panicked := panicked)
        decreases subscribers
      {
        var id :| id in subscribers;
        ShutOneMore(entry.channels, all - subscribers, id);
        assert all - (subscribers - {id}) == (all - subscribers) + {id};
        panicked := panicked || channels[id].closed;
        channels := channels[id := channels[id].(closed := true)];
        subscribers := subscribers - {id};
      }
      assert all - subscribers == all;
    }
  }

  // ---------------------------------------------------------- invariants

  function Unclosed<T>(s: State<T>): set<nat> {
    s.opening + s.subscribers + s.removing
  }

  /** A channel is open exactly while its identifier is being inserted, is in the
      table, or has been taken out but not yet closed; no two of these at once. */
  ghost predicate Valid<T>(s: State<T>) {
    && !s.panicked
    && s.opening !! s.subscribers && s.opening !! s.removing && s.subscribers !! s.removing
    && Unclosed(s) <= s.channels.Keys
    && (forall id :: id in s.channels ==> (s.channels[id].closed <==> id !in Unclosed(s)))
    && (forall id :: id in s.channels ==> id <= s.nextSubscriberID)
    && (s.sending.Sending? ==> s.sending.todo <= s.subscribers)
  }

  lemma StepKeepsValid<T>(s: State<T>, step: Step<T>)
    requires Valid(s) && Enabled(s, step)
    ensures Valid(Next(s, step))
  {
  }

  ghost predicate Run<T>(states: seq<State<T>>, steps: seq<Step<T>>) {
    && |states| == |steps| + 1
    && states[0] == Initial()
    && forall i :: 0 <= i < |steps| ==> Enabled(states[i], steps[i]) && states[i + 1] == Next(states[i], steps[i])
  }

  /** In every interleaving of subscribing, broadcasting, repeated closing and
      shutdown, no event is sent on a closed channel and no channel is closed
      twice; every channel in the table is open. */
  lemma {:induction false} NeverPanics<T>(states: seq<State<T>>, steps: seq<Step<T>>, n: nat)
    requires Run(states, steps) && n < |states|
    ensures Valid(states[n])
  {
    if n > 0 {
      NeverPanics(states, steps, n - 1);
      StepKeepsValid(states[n - 1], steps[n - 1]);
    }
  }

  /** Whom steps i to k - 1 sent to. */
  function SentTo<T>(steps: seq<Step<T>>, i: nat, k: nat): set<nat>
    requires i <= k <= |steps|
  {
    if i == k then {}
    else SentTo(steps, i, k - 1) + Target(steps[k - 1])
  }

  function Target<T>(step: Step<T>): set<nat> {
    if step.SendTo? then {step.id} else {}
  }

  lemma StepDuringBroadcast<T>(s: State<T>, step: Step<T>)
    requires Valid(s) && Enabled(s, step) && s.sending.Sending? && !step.EndBroadcast?
    ensures Next(s, step).subscribers == s.subscribers
    ensures Next(s, step).sending == Sending(s.sending.event, s.sending.todo - Target(step))
    ensures Target(step) <= s.subscribers
  {
    assert s.sending.todo - {} == s.sending.todo;
  }

  /** While a broadcast runs, the table stands still, and the subscribers still to
      be reached are those in the table that were not sent to. */
  lemma {:induction false} BroadcastProgress<T>(states: seq<State<T>>, steps: seq<Step<T>>, i: nat, k: nat)
    requires Run(states, steps) && i < k <= |steps|
    requires steps[i].BeginBroadcast?
    requires forall m :: i < m < k ==> !steps[m].EndBroadcast?
    ensures states[k].subscribers == states[i].subscribers
    ensures states[k].sending == Sending(steps[i].event, states[i].subscribers - SentTo(steps, i + 1, k))
    ensures SentTo(steps, i + 1, k) <= states[i].subscribers
    decreases k
  {
    NeverPanics(states, steps, k - 1);
    if i + 1 < k {
      BroadcastProgress(states, steps, i, k - 1);
      StepDuringBroadcast(states[k - 1], steps[k - 1]);
      var sent := SentTo(steps, i + 1, k - 1);
      assert states[i].subscribers - sent - Target(steps[k - 1]) == states[i].subscribers - (sent + Target(steps[k - 1]));
    } else {
      assert states[i].subscribers - {} == states[i].subscribers;
    }
  }

  /** A finished broadcast has offered its event exactly once to every subscriber
      that was in the table when it began, and to nobody else. */
  lemma BroadcastReachesEverySubscriber<T>(states: seq<State<T>>, steps: seq<Step<T>>, i: nat, j: nat, id: nat)
    requires Run(states, steps) && i < j < |steps|
    requires steps[i].BeginBroadcast? && steps[j].EndBroadcast?
    requires forall m :: i < m < j ==> !steps[m].EndBroadcast?
    ensures id in states[i].subscribers <==> exists k :: i < k < j && steps[k] == SendTo(id)
    ensures forall k, m :: i < k < m < j && steps[k] == SendTo(id) ==> steps[m] != SendTo(id)
    ensures states[j + 1].sending.Quiet?
  {
    BroadcastProgress(states, steps, i, j);
    SentToMeaning(steps, i + 1, j, id);
    forall k, m | i < k < m < j && steps[k] == SendTo(id) ensures steps[m] != SendTo(id) {
      BroadcastProgress(states, steps, i, m);
      SentToMeaning(steps, i + 1, m, id);
    }
  }

  lemma {:induction false} SentToMeaning<T>(steps: seq<Step<T>>, i: nat, k: nat, id: nat)
    requires i <= k <= |steps|
    ensures id in SentTo(steps, i, k) <==> exists m :: i <= m < k && steps[m] == SendTo(id)
    decreases k
  {
    if i < k {
      SentToMeaning(steps, i, k - 1, id);
    }
  }

  // ---------------------------------------------------- subscription spans

  lemma StepKeepsSubscribed<T>(s: State<T>, step: Step<T>, id: nat)
    requires Valid(s) && Enabled(s, step) && id in s.subscribers
    ensures !step.CloseSubscribers? && step != Remove(id) ==> id in Next(s, step).subscribers
  {
  }

  /** An inserted subscription is in the table until it is removed or all are closed. */
  lemma {:induction false} SubscribedUntilRemoved<T>(states: seq<State<T>>, steps: seq<Step<T>>, i: nat, j: nat, id: nat)
    requires Run(states, steps) && i < j <= |steps| && steps[i] == Insert(id)
    requires forall k :: i < k < j ==> !steps[k].CloseSubscribers? && steps[k] != Remove(id)
    ensures id in states[j].subscribers
    decreases j
  {
    if i + 1 < j {
      SubscribedUntilRemoved(states, steps, i, j - 1, id);
      NeverPanics(states, steps, j - 1);
      StepKeepsSubscribed(states[j - 1], steps[j - 1], id);
    }
  }

  /** A subscription whose Close has begun is neither in the table nor on its way in. */
  ghost predicate SpentOut<T>(s: State<T>) {
    s.spent !! s.subscribers && s.spent !! s.opening && s.spent <= s.channels.Keys
  }

  lemma StepKeepsSpentOut<T>(s: State<T>, step: Step<T>)
    requires Valid(s) && Enabled(s, step) && SpentOut(s)
    ensures SpentOut(Next(s, step)) && s.spent <= Next(s, step).spent
    ensures step.Remove? ==> step.id in Next(s, step).spent
  {
  }

  lemma {:induction false} SpentIsOut<T>(states: seq<State<T>>, steps: seq<Step<T>>, n: nat)
    requires Run(states, steps) && n < |states|
    ensures SpentOut(states[n])
  {
    if n > 0 {
      SpentIsOut(states, steps, n - 1);
      NeverPanics(states, steps, n - 1);
      StepKeepsSpentOut(states[n - 1], steps[n - 1]);
    }
  }

  /** A removed subscription is out of the table for good. */
  lemma {:induction false} RemovedIsOut<T>(states: seq<State<T>>, steps: seq<Step<T>>, i: nat, j: nat, id: nat)
    requires Run(states, steps) && i < j <= |steps| && steps[i] == Remove(id)
    ensures id in states[j].spent && id !in states[j].subscribers
    decreases j
  {
    NeverPanics(states, steps, j - 1);
    SpentIsOut(states, steps, j - 1);
    SpentIsOut(states, steps, j);
    StepKeepsSpentOut(states[j - 1], steps[j - 1]);
    if i + 1 < j {
      RemovedIsOut(states, steps, i, j - 1, id);
    }
  }

  // -------------------------------------------------------- after shutdown

  lemma OnlyInsertAdds<T>(s: State<T>, step: Step<T>)
    requires Enabled(s, step) && s.subscribers == {}
    ensures Next(s, step).subscribers == {} <==> !step.Insert?
  {
  }

  /** The manager keeps no closed flag. After shutdown has closed the subscribers the
      table stays empty up to some point, if and only if no subscription is inserted
      up to then, whether its identifier was drawn before or after. */
  lemma {:induction false} EmptyAfterStopExactly<T>(states: seq<State<T>>, steps: seq<Step<T>>, i: nat, n: nat)
    requires Run(states, steps) && i < n <= |steps| && steps[i].CloseSubscribers?
    ensures EmptyThroughout(states, i, n) <==> (forall k :: i < k < n ==> !steps[k].Insert?)
    decreases n
  {
    assert states[i + 1] == Next(states[i], steps[i]);
    if i + 1 < n {
      EmptyAfterStopExactly(states, steps, i, n - 1);
      assert EmptyThroughout(states, i, n) <==> EmptyThroughout(states, i, n - 1) && states[n].subscribers == {};
      if states[n - 1].subscribers == {} {
        OnlyInsertAdds(states[n - 1], steps[n - 1]);
      }
    }
  }

  /** Nobody is in the table in any state after step i, up to state n. */
  predicate EmptyThroughout<T>(states: seq<State<T>>, i: nat, n: nat)
    requires n < |states|
  {
    forall m :: i < m <= n ==> states[m].subscribers == {}
  }

  lemma Extend<T>(states: seq<State<T>>, steps: seq<Step<T>>, step: Step<T>)
    returns (states': seq<State<T>>, steps': seq<Step<T>>)
    requires Run(states, steps) && Enabled(states[|steps|], step)
    ensures Run(states', steps') && states' == states + [Next(states[|steps|], step)] && steps' == steps + [step]
  {
    states', steps' := states + [Next(states[|steps|], step)], steps + [step];
  }

  /** From any point of a run at which a subscription has drawn its identifier, the
      run can go on with shutdown and then the insertion: the late subscriber is in
      the table of the stopped manager, on an open channel. */
  lemma DrawnBeforeStopSurvivesIt<T>(states: seq<State<T>>, steps: seq<Step<T>>, id: nat)
    requires Run(states, steps) && states[|steps|].sending.Quiet? && id in states[|steps|].opening
    ensures exists states', steps' ::
              && Run(states', steps') && steps' == steps + [CloseSubscribers, Insert(id)]
              && states'[..|states|] == states && Registered(states'[|steps'|], id)
  {
    NeverPanics(states, steps, |steps|);
    var closed, closing := Extend(states, steps, CloseSubscribers);
    var states', steps' := Extend(closed, closing, Insert(id));
    assert steps' == steps + [CloseSubscribers, Insert(id)];
    assert states'[..|states|] == states;
    assert Registered(states'[|steps'|], id);
  }

  predicate Registered<T>(s: State<T>, id: nat) {
    id in s.subscribers && id in s.channels && !s.channels[id].closed
  }

  /** A subscription made after shutdown is registered and its channel is open. */
  lemma SubscribeAfterStopStillRegisters<T>(s: State<T>)
    requires Valid(s) && s.sending.Quiet?
    ensures var id := s.nextSubscriberID + 1;
            var stopped := Next(s, CloseSubscribers);
            var drawn := Next(stopped, DrawIdentifier);
            Enabled(drawn, Insert(id)) && Registered(Next(drawn, Insert(id)), id)
  {
  }

  // ------------------------------------------------------------ delivery

  /** The event a step offers to subscriber `id`. */
  function OfferedBy<T>(s: State<T>, step: Step<T>, id: nat): seq<T>
    requires Enabled(s, step)
  {
    if step == SendTo(id) then [s.sending.event] else []
  }

  /** The same, unless the subscriber's buffer is full at that moment. */
  function AcceptedBy<T>(s: State<T>, step: Step<T>, id: nat): seq<T>
    requires Enabled(s, step)
  {
    if id in s.channels && s.channels[id].Full() then [] else OfferedBy(s, step, id)
  }

  /** All events sent to `id` among the first n steps. */
  ghost function Offered<T>(states: seq<State<T>>, steps: seq<Step<T>>, id: nat, n: nat): seq<T>
    requires Run(states, steps) && n <= |steps|
  {
    if n == 0 then [] else Offered(states, steps, id, n - 1) + OfferedBy(states[n - 1], steps[n - 1], id)
  }

  /** Those of them that met a buffer with room. */
  ghost function Accepted<T>(states: seq<State<T>>, steps: seq<Step<T>>, id: nat, n: nat): seq<T>
    requires Run(states, steps) && n <= |steps|
  {
    if n == 0 then [] else Accepted(states, steps, id, n - 1) + AcceptedBy(states[n - 1], steps[n - 1], id)
  }

  function HistoryOf<T>(s: State<T>, id: nat): seq<T> {
    if id in s.channels then s.channels[id].History() else []
  }

  lemma StepDelivers<T>(s: State<T>, step: Step<T>, id: nat)
    requires Valid(s) && Enabled(s, step)
    ensures HistoryOf(Next(s, step), id) == HistoryOf(s, id) + AcceptedBy(s, step, id)
  {
  }

  /** What a subscriber has read, followed by what waits in its buffer, is exactly
      the events sent to it that found room, in the order of sending. */
  lemma {:induction false} Delivery<T>(states: seq<State<T>>, steps: seq<Step<T>>, id: nat, n: nat)
    requires Run(states, steps) && n <= |steps|
    ensures HistoryOf(states[n], id) == Accepted(states, steps, id, n)
    ensures Subsequence(Accepted(states, steps, id, n), Offered(states, steps, id, n))
  {
    if n > 0 {
      var s, step := states[n - 1], steps[n - 1];
      Delivery(states, steps, id, n - 1);
      NeverPanics(states, steps, n - 1);
      StepDelivers(s, step, id);
      OneMoreOffer(s, step, id, Accepted(states, steps, id, n - 1), Offered(states, steps, id, n - 1));
    }
  }

  lemma OneMoreOffer<T>(s: State<T>, step: Step<T>, id: nat, accepted: seq<T>, offered: seq<T>)
    requires Enabled(s, step) && Subsequence(accepted, offered)
    ensures Subsequence(accepted + AcceptedBy(s, step, id), offered + OfferedBy(s, step, id))
  {
    if OfferedBy(s, step, id) == [] {
      assert accepted + [] == accepted && offered + [] == offered;
    } else if AcceptedBy(s, step, id) == [] {
      assert accepted + [] == accepted;
      SubsequenceSkip(accepted, offered, s.sending.event);
    } else {
      SubsequenceKeep(accepted, offered, s.sending.event);
    }
  }
}
