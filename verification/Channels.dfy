/** Bounded channels as the event streams use them. */
module Channels {

  const BUFFER_LENGTH := 8

  /** `received` is what the reader has taken so far. */
  datatype Channel<T> = Channel(buffer: seq<T>, received: seq<T>, closed: bool) {

    predicate Full() { |buffer| >= BUFFER_LENGTH }

    /** A non-blocking send: the event is dropped when the buffer is full. */
    function Offer(event: T): Channel<T> {
      if Full() then this else this.(buffer := buffer + [event])
    }

    function Take(): Channel<T>
      requires buffer != []
    {
      this.(buffer := buffer[1..], received := received + [buffer[0]])
    }

    /** Everything ever accepted: first what was read, then what waits. */
    function History(): seq<T> { received + buffer }
  }

  // A table of channels, by subscription identifier.

  /** Closes the channels of `ids`. */
  function Shut<T>(channels: map<nat, Channel<T>>, ids: set<nat>): map<nat, Channel<T>> {
    map id | id in channels :: if id in ids then channels[id].(closed := true) else channels[id]
  }

  /** Offers the event to the channels of `ids`. */
  function Send<T>(channels: map<nat, Channel<T>>, ids: set<nat>, event: T): map<nat, Channel<T>> {
    map id | id in channels :: if id in ids then channels[id].Offer(event) else channels[id]
  }

  predicate AnyClosed<T>(channels: map<nat, Channel<T>>, ids: set<nat>) {
    exists id :: id in ids && id in channels && channels[id].closed
  }

  lemma SendOneMore<T>(channels: map<nat, Channel<T>>, done: set<nat>, id: nat, event: T)
    requires id in channels && id !in done
    ensures Send(channels, done, event)[id] == channels[id]
    ensures Send(channels, done + {id}, event) == Send(channels, done, event)[id := channels[id].Offer(event)]
    ensures AnyClosed(channels, done + {id}) == (AnyClosed(channels, done) || channels[id].closed)
  {
  }

  lemma ShutOneMore<T>(channels: map<nat, Channel<T>>, done: set<nat>, id: nat)
    requires id in channels && id !in done
    ensures Shut(channels, done)[id] == channels[id]
    ensures Shut(channels, done + {id}) == Shut(channels, done)[id := channels[id].(closed := true)]
    ensures AnyClosed(channels, done + {id}) == (AnyClosed(channels, done) || channels[id].closed)
  {
  }
}
