/** The broadcaster of internal/api/feedback_events.go; the one of
    internal/api/subscription_test_events.go is the same protocol over another
    event type. A mutex makes every operation one atomic step. */
module EventBroadcaster {
  import opened Basics
  import opened Channels

  /** `channels` holds the channel of every subscription ever made, by identifier;
      `subscribers` are the identifiers in the broadcaster's table; `spent` are the
      subscriptions whose Close has run. `panicked` records a send on a closed
      channel or a second close, either of which aborts the program. */
  datatype State<T> = State(
    nextID: nat,
    subscribers: set<nat>,
    closed: bool,
    channels: map<nat, Channel<T>>,
    spent: set<nat>,
    panicked: bool)

  datatype Step<T> =
    | Subscribe
    | Broadcast(event: T)
    | CloseSubscription(id: nat)
    | Close
    | Receive(id: nat)

  function Initial<T>(): State<T> {
    State(0, {}, false, map[], {}, false)
  }

  predicate Enabled<T>(s: State<T>, step: Step<T>) {
    match step
    case CloseSubscription(id) => id in s.channels
    case Receive(id) => id in s.channels && s.channels[id].buffer != []
    case _ => true
  }

  function Next<T>(s: State<T>, step: Step<T>): State<T>
    requires Enabled(s, step)
  {
    match step
    case Subscribe =>
      if s.closed then s
      else s.(nextID := s.nextID + 1, subscribers := s.subscribers + {s.nextID},
              channels := s.channels[s.nextID := Channel([], [], false)])
    case Broadcast(event) =>
      if s.closed || s.subscribers == {} then s
      else s.(channels := Send(s.channels, s.subscribers, event),
              panicked := s.panicked || AnyClosed(s.channels, s.subscribers))
    case CloseSubscription(id) =>
      if id in s.spent then s
      else if id !in s.subscribers then s.(spent := s.spent + {id})
      else s.(spent := s.spent + {id}, subscribers := s.subscribers - {id},
              channels := Shut(s.channels, {id}),
              panicked := s.panicked || s.channels[id].closed)
    case Close =>
      if s.closed then s
      else s.(closed := true, subscribers := {}, channels := Shut(s.channels, s.subscribers),
              panicked := s.panicked || AnyClosed(s.channels, s.subscribers))
    case Receive(id) => s.(channels := s.channels[id := s.channels[id].Take()])
  }

  // ----------------------------------------------------------- the class

  /** Every method keeps `Valid`, by StepKeepsValid. */
  class FeedbackEventBroadcaster<T> {
    var nextID: nat
    var subscribers: set<nat>
    var closed: bool
    var channels: map<nat, Channel<T>>
    var spent: set<nat>
    var panicked: bool

    function Current(): State<T>
      reads this
    {
      State(nextID, subscribers, closed, channels, spent, panicked)
    }

    constructor ()
      ensures Current() == Initial() && Valid(Current())
    {
      nextID, subscribers, closed := 0, {}, false;
      channels, spent, panicked := map[], {}, false;
    }

    method Subscribe() returns (subscription: Option<nat>)
      requires Valid(Current())
      modifies this
      ensures Current() == Next(old(Current()), Step.Subscribe)
      ensures subscription == if old(closed) then None else Some(old(nextID))
    {
      if closed { return None; }
      subscription := Some(nextID);
      channels := channels[nextID := Channel([], [], false)];
      subscribers := subscribers + {nextID};
      nextID := nextID + 1;
    }

    method Broadcast(event: T)
      requires Valid(Current())
      modifies this
      ensures Current() == Next(old(Current()), Step.Broadcast(event))
    {
      ghost var entry := Current();
      if closed || subscribers == {} { return; }
      var todo := subscribers;
      while todo != {}
        invariant todo <= subscribers
        invariant channels == Send(entry.channels, subscribers - todo, event)
        invariant panicked == (entry.panicked || AnyClosed(entry.channels, subscribers - todo))
        invariant Current() == entry.(channels := channels, panicked := panicked)
        decreases todo
      {
        var id :| id in todo;
        SendOneMore(entry.channels, subscribers - todo, id, event);
        assert subscribers - (todo - {id}) == (subscribers - todo) + {id};
        panicked := panicked || channels[id].closed;
        if !channels[id].Full() {
          channels := channels[id := channels[id].(buffer := channels[id].buffer + [event])];
        }
        todo := todo - {id};
      }
      assert subscribers - todo == subscribers;
    }

    /** The subscription's own Close, guarded by its `once`. */
    method CloseSubscription(id: nat)
      requires Valid(Current())
      requires id in channels
      modifies this
      ensures Current() == Next(old(Current()), Step.CloseSubscription(id))
    {
      if id in spent { return; }
      spent := spent + {id};
      if id in subscribers {
        subscribers := subscribers - {id};
        panicked := panicked || channels[id].closed;
        ghost var before := channels;
        channels := channels[id := channels[id].(closed := true)];
        assert channels == Shut(before, {id});
      }
    }

    method Close()
      requires Valid(Current())
      modifies this
      ensures Current() == Next(old(Current()), Step.Close)
    {
      ghost var entry := Current();
      if closed { return; }
      closed := true;
      ghost var all := subscribers;
      while subscribers != {}
        invariant subscribers <= all
        invariant channels == Shut(entry.channels, all - subscribers)
        invariant panicked == (entry.panicked || AnyClosed(entry.channels, all - subscribers))
        invariant Current() == entry.(closed := true, subscribers := subscribers, channels := channels, panicked := panicked)
        decreases subscribers
      {
        var id :| id in subscribers;
        ShutOneMore(entry.channels, all - subscribers, id);
        assert all - (subscribers - {id}) == (all - subscribers) + {id};
        panicked := panicked || channels[id].closed;
        channels := channels[id := channels[id].(closed := true)];
        subscribers := subscribers - {id};
      }
      assert all - subscribers == all;
    }

    method Receive(id: nat) returns (event: T)
      requires Valid(Current())
      requires id in channels && channels[id].buffer != []
      modifies this
      ensures Current() == Next(old(Current()), Step.Receive(id))
      ensures event == old(channels[id].buffer[0])
    {
      event := channels[id].buffer[0];
      channels := channels[id := channels[id].Take()];
    }
  }

  // ---------------------------------------------------------- invariants

  /** A channel is open exactly while its identifier is in the table. */
  ghost predicate Valid<T>(s: State<T>) {
    && !s.panicked
    && (forall id: nat :: id in s.channels <==> id < s.nextID)
    && s.subscribers <= s.channels.Keys
    && (forall id :: id in s.channels ==> (s.channels[id].closed <==> id !in s.subscribers))
    && (forall id :: id in s.channels ==> |s.channels[id].buffer| <= BUFFER_LENGTH)
    && (s.closed ==> s.subscribers == {})
  }

  lemma StepKeepsValid<T>(s: State<T>, step: Step<T>)
    requires Valid(s) && Enabled(s, step)
    ensures Valid(Next(s, step))
  {
  }

  ghost predicate Run<T>(states: seq<State<T>>, steps: seq<Step<T>>) {
    && |states| == |steps| + 1
    && states[0] == Initial()
    && forall i :: 0 <= i < |steps| ==> Enabled(states[i], steps[i]) && states[i + 1] == Next(states[i], steps[i])
  }

  /** In every interleaving no event is sent on a closed channel, no channel is
      closed twice, and a channel is open exactly while it is in the table. */
  lemma {:induction false} NeverPanics<T>(states: seq<State<T>>, steps: seq<Step<T>>, n: nat)
    requires Run(states, steps) && n < |states|
    ensures Valid(states[n])
  {
    if n > 0 {
      NeverPanics(states, steps, n - 1);
      StepKeepsValid(states[n - 1], steps[n - 1]);
    }
  }

  // ------------------------------------------------------------ delivery

  /** The event a step offers to subscriber `id`. */
  function OfferedBy<T>(s: State<T>, step: Step<T>, id: nat): seq<T> {
    if step.Broadcast? && id in s.subscribers then [step.event] else []
  }

  /** The same, unless the subscriber's buffer is full at that moment. */
  function AcceptedBy<T>(s: State<T>, step: Step<T>, id: nat): seq<T> {
    if id in s.channels && s.channels[id].Full() then [] else OfferedBy(s, step, id)
  }

  /** All events broadcast while `id` was subscribed, among the first n steps. */
  ghost function Offered<T>(states: seq<State<T>>, steps: seq<Step<T>>, id: nat, n: nat): seq<T>
    requires Run(states, steps) && n <= |steps|
  {
    if n == 0 then [] else Offered(states, steps, id, n - 1) + OfferedBy(states[n - 1], steps[n - 1], id)
  }

  /** Those of them that met a buffer with room. */
  ghost function Accepted<T>(states: seq<State<T>>, steps: seq<Step<T>>, id: nat, n: nat): seq<T>
    requires Run(states, steps) && n <= |steps|
  {
    if n == 0 then [] else Accepted(states, steps, id, n - 1) + AcceptedBy(states[n - 1], steps[n - 1], id)
  }

  function HistoryOf<T>(s: State<T>, id: nat): seq<T> {
    if id in s.channels then s.channels[id].History() else []
  }

  lemma StepDelivers<T>(s: State<T>, step: Step<T>, id: nat)
    requires Valid(s) && Enabled(s, step)
    ensures HistoryOf(Next(s, step), id) == HistoryOf(s, id) + AcceptedBy(s, step, id)
  {
  }

  /** What a subscriber has read, followed by what waits in its buffer, is exactly
      the events broadcast during its subscription that found room, in order. */
  lemma {:induction false} Delivery<T>(states: seq<State<T>>, steps: seq<Step<T>>, id: nat, n: nat)
    requires Run(states, steps) && n < |states|
    ensures HistoryOf(states[n], id) == Accepted(states, steps, id, n)
    ensures Subsequence(Accepted(states, steps, id, n), Offered(states, steps, id, n))
  {
    if n > 0 {
      var s, step := states[n - 1], steps[n - 1];
      Delivery(states, steps, id, n - 1);
      NeverPanics(states, steps, n - 1);
      StepDelivers(s, step, id);
      var accepted, offered := Accepted(states, steps, id, n - 1), Offered(states, steps, id, n - 1);
      if OfferedBy(s, step, id) != [] {
        if AcceptedBy(s, step, id) == [] {
          assert accepted + [] == accepted;
          SubsequenceSkip(accepted, offered, step.event);
        } else {
          SubsequenceKeep(accepted, offered, step.event);
        }
      } else {
        assert accepted + [] == accepted && offered + [] == offered;
      }
    }
  }

  /** A reader that always leaves room gets every event, in order. */
  lemma {:induction false} PromptReaderMissesNothing<T>(states: seq<State<T>>, steps: seq<Step<T>>, id: nat, n: nat)
    requires Run(states, steps) && n < |states|
    requires forall i :: 0 <= i < n && steps[i].Broadcast? && id in states[i].channels ==>
               !states[i].channels[id].Full()
    ensures HistoryOf(states[n], id) == Offered(states, steps, id, n)
  {
    if n > 0 {
      PromptReaderMissesNothing(states, steps, id, n - 1);
      NeverPanics(states, steps, n - 1);
      StepDelivers(states[n - 1], steps[n - 1], id);
    }
  }

  /** After Close nobody is subscribed any more and nobody ever will be. */
  lemma {:induction false} ClosedForGood<T>(states: seq<State<T>>, steps: seq<Step<T>>, i: nat, j: nat)
    requires Run(states, steps) && i <= j < |states| && states[i].closed
    ensures states[j].closed && states[j].subscribers == {}
    ensures forall id: nat :: id in states[j].channels <==> id in states[i].channels
    decreases j - i
  {
    NeverPanics(states, steps, i);
    if i < j {
      ClosedForGood(states, steps, i, j - 1);
    }
  }

  // ---------------------------------------------------- subscription spans

  lemma StepKeepsSubscribed<T>(s: State<T>, step: Step<T>, id: nat)
    requires Valid(s) && Enabled(s, step) && id in s.channels
    ensures id in Next(s, step).channels
    ensures id in s.subscribers && !step.Close? && step != CloseSubscription(id) ==> id in Next(s, step).subscribers
  {
  }

  /** A subscription made while the broadcaster is open is in the table until it is
      closed or the broadcaster is. */
  lemma {:induction false} SubscribedUntilClosed<T>(states: seq<State<T>>, steps: seq<Step<T>>, i: nat, j: nat, id: nat)
    requires Run(states, steps) && i < j <= |steps|
    requires steps[i].Subscribe? && !states[i].closed && id == states[i].nextID
    requires forall k :: i < k < j ==> !steps[k].Close? && steps[k] != CloseSubscription(id)
    ensures id in states[j].channels && id in states[j].subscribers
    decreases j
  {
    if i + 1 < j {
      SubscribedUntilClosed(states, steps, i, j - 1, id);
      NeverPanics(states, steps, j - 1);
      StepKeepsSubscribed(states[j - 1], steps[j - 1], id);
    }
  }

  /** The subscription is over, having been sent these events. */
  predicate IsOver<T(==)>(s: State<T>, id: nat, history: seq<T>) {
    id in s.channels && id !in s.subscribers && HistoryOf(s, id) == history
  }

  lemma CloseTakesOut<T>(s: State<T>, id: nat)
    requires Valid(s) && id in s.channels && (id in s.spent ==> id !in s.subscribers)
    ensures IsOver(Next(s, CloseSubscription(id)), id, HistoryOf(s, id))
  {
  }

  lemma StepKeepsOver<T>(s: State<T>, step: Step<T>, id: nat, history: seq<T>)
    requires Valid(s) && Enabled(s, step) && IsOver(s, id, history)
    ensures IsOver(Next(s, step), id, history)
  {
    StepDelivers(s, step, id);
  }

  lemma StepKeepsSpentOut<T>(s: State<T>, step: Step<T>)
    requires Valid(s) && Enabled(s, step) && s.spent !! s.subscribers && s.spent <= s.channels.Keys
    ensures Next(s, step).spent !! Next(s, step).subscribers && Next(s, step).spent <= Next(s, step).channels.Keys
  {
  }

  lemma {:induction false} SpentIsOut<T>(states: seq<State<T>>, steps: seq<Step<T>>, n: nat)
    requires Run(states, steps) && n < |states|
    ensures states[n].spent !! states[n].subscribers && states[n].spent <= states[n].channels.Keys
  {
    if n > 0 {
      SpentIsOut(states, steps, n - 1);
      NeverPanics(states, steps, n - 1);
      StepKeepsSpentOut(states[n - 1], steps[n - 1]);
    }
  }

  /** A closed subscription is out of the table for good and is sent nothing more. */
  lemma {:induction false} ClosedSubscriptionIsOver<T>(states: seq<State<T>>, steps: seq<Step<T>>, i: nat, j: nat, id: nat)
    requires Run(states, steps) && i < j <= |steps| && steps[i] == CloseSubscription(id)
    ensures IsOver(states[j], id, HistoryOf(states[i], id))
    decreases j
  {
    NeverPanics(states, steps, j - 1);
    if i + 1 < j {
      ClosedSubscriptionIsOver(states, steps, i, j - 1, id);
      StepKeepsOver(states[j - 1], steps[j - 1], id, HistoryOf(states[i], id));
    } else {
      SpentIsOut(states, steps, i);
      CloseTakesOut(states[i], id);
    }
  }
}
