/** One topic's channel: its replay buffer, its retained message and what its receivers are sent. */
module Channels {
  import opened Common
  import opened Sequences

  /**
   * A channel as a value. `log` is everything that ever entered the buffer, in publish order; the
   * program keeps only its newest part. A receiver is a position in the log: it is sent `log[position..]`.
   * `refilled` and `restored` remember what the channel was given at startup: the part of the log that was
   * not published on it, and the retained message it began with.
   */
  datatype Channel = Channel(
    log: seq<Envelope>, buffer: seq<Envelope>, retained: Option<Envelope>,
    refilled: seq<Envelope>, restored: Option<Envelope>)

  const EMPTY_CHANNEL := Channel([], [], None, [], None)

  /** A retained publish sets the retained message, or clears it when its payload is empty. */
  function RetainedAfter(retained: Option<Envelope>, envelope: Envelope, retain: bool): Option<Envelope> {
    if !retain then retained else if envelope.payload == [] then None else Some(envelope)
  }

  function Send(channel: Channel, envelope: Envelope, retain: bool, capacity: nat): Channel {
    channel.(log := channel.log + [envelope],
             buffer := Last(channel.buffer + [envelope], capacity),
             retained := RetainedAfter(channel.retained, envelope, retain))
  }

  predicate HasId(envelopes: seq<Envelope>, id: MessageId) {
    exists i :: 0 <= i < |envelopes| && envelopes[i].id == id
  }

  /** What a new subscriber gets first: the buffer, after the retained message if that fell out of it. */
  function Backlog(channel: Channel): seq<Envelope> {
    if channel.retained.Some? && !HasId(channel.buffer, channel.retained.value.id)
    then [channel.retained.value] + channel.buffer
    else channel.buffer
  }

  /** The retained message publishes leave behind: the newest retained one, unless empty, or the `first` one. */
  function RetainedFrom(first: Option<Envelope>, log: seq<Envelope>): Option<Envelope> {
    if log == [] then first
    else RetainedAfter(RetainedFrom(first, log[..|log| - 1]), log[|log| - 1], log[|log| - 1].retain)
  }

  /** That is: nothing published retained since, or the newest such publish, or none if that was empty. */
  lemma {:induction false} RetainedIsNewest(first: Option<Envelope>, log: seq<Envelope>) returns (i: nat)
    ensures if forall e :: e in log ==> !e.retain then RetainedFrom(first, log) == first
      else
        && i < |log| && log[i].retain && (forall j :: i < j < |log| ==> !log[j].retain)
        && RetainedFrom(first, log) == if |log[i].payload| == 0 then None else Some(log[i])
    decreases |log|
  {
    i := 0;
    if log != [] {
      var init, last := log[..|log| - 1], log[|log| - 1];
      assert log == init + [last];
      if last.retain {
        i := |init|;
        assert last in log;
      } else {
        i := RetainedIsNewest(first, init);
      }
    }
  }

  /** The buffer of a channel is the newest part of its history, whatever its retained slot. */
  ghost predicate Buffered(channel: Channel, capacity: nat) {
    channel.buffer == Last(channel.log, capacity)
  }

  lemma SendKeepsBuffered(channel: Channel, envelope: Envelope, retain: bool, capacity: nat)
    requires Buffered(channel, capacity)
    ensures Buffered(Send(channel, envelope, retain, capacity), capacity)
  {
    LastAppend(channel.log, envelope, capacity);
  }

  /** A channel that only ever saw publishes of its own topic, since its creation or its refill. */
  ghost predicate Exact(channel: Channel, capacity: nat) {
    && Buffered(channel, capacity)
    && channel.refilled <= channel.log
    && channel.retained == RetainedFrom(channel.restored, channel.log[|channel.refilled|..])
  }

  lemma SendKeepsExact(channel: Channel, envelope: Envelope, capacity: nat)
    requires Exact(channel, capacity)
    ensures Exact(Send(channel, envelope, envelope.retain, capacity), capacity)
  {
    SendKeepsBuffered(channel, envelope, envelope.retain, capacity);
    var since := channel.log[|channel.refilled|..];
    assert (channel.log + [envelope])[|channel.refilled|..] == since + [envelope];
  }

  class TopicChannel {
    const capacity: nat
    var buffer: seq<Envelope>
    var retained: Option<Envelope>
    ghost var log: seq<Envelope>
    ghost var refilled: seq<Envelope>
    ghost var restored: Option<Envelope>

    ghost function State(): Channel
      reads this
    {
      Channel(log, buffer, retained, refilled, restored)
    }

    ghost predicate Valid()
      reads this
    {
      Exact(State(), capacity)
    }

    constructor (capacity: nat)
      ensures Valid() && State() == EMPTY_CHANNEL && this.capacity == capacity
    {
      this.capacity := capacity;
      buffer, retained, log, refilled, restored := [], None, [], [], None;
    }

    /** Publishing on an exact-topic channel: buffer, retained slot and receivers in one step. */
    method Publish(envelope: Envelope)
      requires Valid()
      modifies this
      ensures Valid()
      ensures State() == Send(old(State()), envelope, envelope.retain, capacity)
    {
      SendKeepsExact(State(), envelope, capacity);
      Push(envelope);
      if envelope.retain {
        retained := if envelope.payload == [] then None else Some(envelope);
      }
    }

    /** At the back of the buffer, dropping the front one if that is one too many. */
    method Push(envelope: Envelope)
      requires |buffer| <= capacity
      modifies `buffer, `log
      ensures buffer == Last(old(buffer) + [envelope], capacity)
      ensures log == old(log) + [envelope]
    {
      buffer := buffer + [envelope];
      if |buffer| > capacity {
        buffer := buffer[1..];
      }
      log := log + [envelope];
    }

    /** The snapshot and the receiver's starting position, taken together. */
    method Subscribe() returns (backlog: seq<Envelope>, ghost position: nat)
      requires Valid()
      ensures backlog == Backlog(State()) && position == |log|
    {
      position := |log|;
      backlog := buffer;
      if retained.Some? && !HasId(backlog, retained.value.id) {
        backlog := [retained.value] + backlog;
      }
    }
  }
}
