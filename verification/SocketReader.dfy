/** The socket reader of src/slackbot/user_session.rs in place: heartbeats, the queue
    towards the consumer, and its agreement with the steps of Protocol. */
module SocketReader {
  import opened Harvest
  import opened Protocol

  const SEQUENCES: nat := 0x1_0000_0000_0000_0000

  datatype PingSent = PingSent(id: nat, at: int)

  /** A frame, once parsed: a pong with the ping it says it replies to, a message or
      membership event, a request to reconnect, an error or a close; anything else. */
  datatype Frame = PongFrame(reply: Option<nat>) | EventFrame(e: Event) | EndFrame | OtherFrame

  predicate Replies(pending: Option<PingSent>, frame: Frame) {
    frame.PongFrame? && pending.Some? && (frame.reply.None? || frame.reply == Some(pending.value.id))
  }

  /** The link after a frame that the reader accepts. */
  function AfterFrame(l: Link, pending: Option<PingSent>, frame: Frame): Link {
    if frame.EventFrame? then l.(read := l.read + [frame.e])
    else if Replies(pending, frame) then l.(read := l.read + [Barrier(pending.value.at)], ping := None)
    else l
  }

  class Reader {
    /** Everything queued so far, of which the consumer has received `taken`. */
    var read: seq<Event>
    var taken: nat
    var pending: Option<PingSent>
    var sequence: nat

    ghost predicate Shows(l: Link)
      reads this
    {
      && read == l.read && taken == l.taken
      && l.ping == (if pending.Some? then Some(pending.value.at) else None)
      && (pending.Some? ==> pending.value.id == sequence)
      && |l.read| <= l.taken + QUEUE_BOUND
    }

    constructor ()
      ensures forall began :: Shows(CLOSED.(open := true, began := began))
    {
      read, taken, pending, sequence := [], 0, None, 0;
    }

    /** `try_send`: a full queue is an error, never a silent loss. */
    method Enqueue(e: Event, ghost l: Link) returns (ok: bool)
      requires Shows(l)
      modifies this`read
      ensures ok <==> HasRoom(l)
      ensures read == if ok then old(read) + [e] else old(read)
    {
      ok := |read| < taken + QUEUE_BOUND;
      if ok {
        read := read + [e];
      }
    }

    /** The interval: a new ping only when the last one has been answered, and an
        answer that is overdue ends the connection. */
    method Tick(now: int, overdue: bool, ghost l: Link) returns (ok: bool)
      requires Shows(l)
      modifies this`pending, this`sequence
      ensures ok <==> l.ping.None? || !overdue
      ensures l.ping.None? ==> pending == Some(PingSent((old(sequence) + 1) % SEQUENCES, now))
      ensures l.ping.Some? ==> pending == old(pending) && sequence == old(sequence)
      ensures Shows(if l.ping.None? then l.(ping := Some(now)) else l)
    {
      if pending.Some? { return !overdue; }
      sequence := (sequence + 1) % SEQUENCES;
      pending := Some(PingSent(sequence, now));
      return true;
    }

    /** The consumer receives the oldest event it has not received yet. */
    method Take(ghost l: Link) returns (e: Event)
      requires Shows(l) && taken < |read|
      modifies this`taken
      ensures Shows(l.(taken := l.taken + 1, busy := Some(e))) && e == l.read[l.taken]
    {
      e := read[taken];
      taken := taken + 1;
    }

    /** An end frame ends the connection, and so does a message, a membership event or
        the answer to the ping for which the queue has no room; nothing else does. */
    method Receive(frame: Frame, ghost l: Link) returns (ok: bool)
      requires Shows(l)
      modifies this`read, this`pending
      ensures var answer := frame.PongFrame? && old(pending).Some?
                            && (frame.reply.None? || frame.reply.value == old(pending).value.id);
        && (ok <==> !frame.EndFrame? && (frame.EventFrame? || answer ==> |old(read)| - taken < QUEUE_BOUND))
        && read == old(read) + (if ok && frame.EventFrame? then [frame.e]
                                else if ok && answer then [Barrier(old(pending).value.at)] else [])
        && pending == if ok && answer then None else old(pending)
      ensures Shows(if ok then AfterFrame(l, old(pending), frame) else l)
    {
      match frame
      case EventFrame(e) => ok := Enqueue(e, l);
      case PongFrame(reply) =>
        if pending.None? || (reply.Some? && reply.value != pending.value.id) { return true; }
        ok := Enqueue(Barrier(pending.value.at), l);
        if ok {
          pending := None;
        }
      case EndFrame => return false;
      case OtherFrame => return true;
    }
  }

  /** What a frame leads to is a step of the machine, or nothing: an end frame and a full
      queue are the loss of the connection, an event is received, and the answer to the
      ping is the step that relies on ordered delivery. */
  lemma FrameIsAStep(w: World, s: State, pending: Option<PingSent>, frame: Frame)
    requires s.link.open && (frame.EventFrame? ==> !frame.e.Barrier?)
    requires s.link.ping == if pending.Some? then Some(pending.value.at) else None
    requires Replies(pending, frame) ==> StreamDelivered(w, s.link, pending.value.at)
    ensures var t, room := s.(link := AfterFrame(s.link, pending, frame)), |s.link.read| - s.link.taken < QUEUE_BOUND;
      match frame
      case EndFrame => WireEnabled(w, s, Disconnect)
      case EventFrame(e) =>
        if room then WireEnabled(w, s, Receive(e)) && WireApply(w, s, Receive(e)) == t
        else WireEnabled(w, s, Disconnect)
      case PongFrame(reply) =>
        if pending.None? || (reply.Some? && reply.value != pending.value.id) then t == s
        else if room then WireEnabled(w, s, Pong) && WireApply(w, s, Pong) == t
        else WireEnabled(w, s, Disconnect)
      case OtherFrame => t == s
  {
  }
}
