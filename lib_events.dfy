/**
 * The process-wide event sink of src/lib.rs: the one-shot handler slot
 * `TRAY_EVENT_HANDLER` (a `OnceCell<Option<handler>>`) and the unbounded
 * FIFO channel `TRAY_CHANNEL`, modelled sequentially. A handler is known by an
 * opaque number; calling it is recorded in `handled`.
 */
module EventSinks {
  import opened TrayTypes

  /** The `OnceCell`: never set, or set once and for all to a handler or to `None`. */
  datatype Slot = Unset | Set(handler: Option<nat>)

  /** A handler invocation: which handler received which event. */
  datatype Delivery<E> = Delivery(handler: nat, event: E)

  /** The abstract state of the sink: the slot, the queued events (oldest first) and the handler calls so far. */
  datatype SinkState<E> = SinkState(slot: Slot, channel: seq<E>, handled: seq<Delivery<E>>)

  function Initial<E>(): SinkState<E>
  {
    SinkState(Unset, [], [])
  }

  /** `TrayEvent::set_event_handler`: `OnceCell::set` succeeds only on an unset cell; its error is ignored. */
  function Registered<E>(s: SinkState<E>, f: Option<nat>): (r: SinkState<E>)
    ensures s.slot.Unset? ==> r.slot == Set(f)
    ensures s.slot.Set? ==> r == s
    ensures r.channel == s.channel && r.handled == s.handled
  {
    if s.slot.Unset? then s.(slot := Set(f)) else s
  }

  /** `TrayEvent::send`: `get_or_init(|| None)`, then the handler if there is one, else the channel. */
  function Sent<E>(s: SinkState<E>, e: E): (r: SinkState<E>)
    ensures r.slot.Set? && (s.slot.Set? ==> r.slot == s.slot)
    ensures s.slot.Unset? ==> r.slot == Set(None)
    ensures r.slot.handler.Some? ==> r.handled == s.handled + [Delivery(r.slot.handler.value, e)] && r.channel == s.channel
    ensures r.slot.handler.None? ==> r.channel == s.channel + [e] && r.handled == s.handled
  {
    var slot := if s.slot.Unset? then Set(None) else s.slot;
    if slot.handler.Some? then SinkState(slot, s.channel, s.handled + [Delivery(slot.handler.value, e)])
    else SinkState(slot, s.channel + [e], s.handled)
  }

  /** The result of `try_recv` on the receiver, with the state it leaves. */
  datatype Reception<E> = Reception(event: Option<E>, after: SinkState<E>)

  /** `Receiver::try_recv`: the oldest queued event, or nothing when the channel is empty. */
  function Received<E>(s: SinkState<E>): (r: Reception<E>)
    ensures s.channel == [] ==> r.event == None && r.after == s
    ensures s.channel != [] ==> r.event == Some(s.channel[0]) && r.after.channel == s.channel[1..]
    ensures r.after.slot == s.slot && r.after.handled == s.handled
  {
    if s.channel == [] then Reception(None, s) else Reception(Some(s.channel[0]), s.(channel := s.channel[1..]))
  }

  /** Sending the events of `es` one after the other. */
  function SentAll<E>(s: SinkState<E>, es: seq<E>): SinkState<E>
    decreases |es|
  {
    if es == [] then s else SentAll(Sent(s, es[0]), es[1..])
  }

  /** Receiving with `try_recv` until it returns nothing: the events in the order received. */
  function Drained<E>(s: SinkState<E>): seq<E>
    decreases |s.channel|
  {
    var r := Received(s);
    if r.event.None? then [] else [r.event.value] + Drained(r.after)
  }

  /** Once the slot holds `None`, every send goes to the back of the channel. */
  lemma {:induction false} SentAllToChannel<E>(s: SinkState<E>, es: seq<E>)
    requires s.slot == Set(None)
    ensures SentAll(s, es) == s.(channel := s.channel + es)
    decreases |es|
  {
    if es != [] {
      SentAllToChannel(Sent(s, es[0]), es[1..]);
      assert s.channel + [es[0]] + es[1..] == s.channel + es;
    }
  }

  /** Once the slot holds a handler, every send calls it, in order, and the channel is untouched. */
  lemma {:induction false} SentAllToHandler<E>(s: SinkState<E>, es: seq<E>, h: nat)
    requires s.slot == Set(Some(h))
    ensures SentAll(s, es).slot == s.slot && SentAll(s, es).channel == s.channel
    ensures SentAll(s, es).handled == s.handled + seq(|es|, i requires 0 <= i < |es| => Delivery(h, es[i]))
    decreases |es|
  {
    if es != [] {
      SentAllToHandler(Sent(s, es[0]), es[1..], h);
      var tail := seq(|es| - 1, i requires 0 <= i < |es| - 1 => Delivery(h, es[1..][i]));
      var all := seq(|es|, i requires 0 <= i < |es| => Delivery(h, es[i]));
      assert [Delivery(h, es[0])] + tail == all;
    }
  }

  /** Draining the channel yields exactly its contents, oldest first. */
  lemma {:induction false} DrainedIsChannel<E>(s: SinkState<E>)
    ensures Drained(s) == s.channel
    decreases |s.channel|
  {
    if s.channel != [] {
      DrainedIsChannel(Received(s).after);
    }
  }

  /**
   * A send before any registration fixes the slot to `None`: later
   * registrations are ignored and every event, the first included, is
   * received from the channel in the order it was sent.
   */
  lemma EarlySendLocksChannel<E>(e: E, h: Option<nat>, es: seq<E>)
    ensures Registered(Sent(Initial(), e), h) == Sent(Initial(), e)
    ensures Drained(SentAll(Registered(Sent(Initial(), e), h), es)) == [e] + es
  {
    var s := Sent(Initial(), e);
    SentAllToChannel(s, es);
    DrainedIsChannel(SentAll(s, es));
  }

  /** The first registration wins: a second `set_event_handler` changes nothing. */
  lemma FirstRegistrationWins<E>(s: SinkState<E>, f: Option<nat>, g: Option<nat>)
    ensures Registered(Registered(s, f), g) == Registered(s, f)
  {
  }

  /** The sink as the process-wide mutable object the drivers send to. */
  class EventSink<E> {
    var slot: Slot
    var channel: seq<E>
    var handled: seq<Delivery<E>>

    function State(): SinkState<E>
      reads this
    {
      SinkState(slot, channel, handled)
    }

    /** The statics start out uninitialised: no handler, an empty channel. */
    constructor ()
      ensures State() == Initial()
    {
      slot := Unset;
      channel := [];
      handled := [];
    }

    method SetEventHandler(f: Option<nat>)
      modifies this
      ensures State() == Registered(old(State()), f)
    {
      if slot.Unset? {
        slot := Set(f);
      }
    }

    method Send(e: E)
      modifies this
      ensures State() == Sent(old(State()), e)
    {
      if slot.Unset? {
        slot := Set(None);
      }
      match slot.handler {
        case Some(h) => handled := handled + [Delivery(h, e)];
        case None => channel := channel + [e];
      }
    }

    /** `TrayEvent::receiver().try_recv()`. */
    method TryRecv() returns (r: Option<E>)
      modifies this
      ensures r == Received(old(State())).event && State() == Received(old(State())).after
    {
      if channel == [] {
        r := None;
      } else {
        r := Some(channel[0]);
        channel := channel[1..];
      }
    }
  }
}
