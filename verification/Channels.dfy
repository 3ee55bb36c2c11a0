/**
 The receiving and sending ends of a channel as the program has them (src/rr.rs,
 src/crossbeam_channel.rs, src/desync.rs): objects with a buffer and a real channel, methods that record,
 replay, or go on after a desynchronisation.

 A receiver has one user at a time. Its object also stands for the real channel's queue; what is on
 `wire` when a method is called, and how many of its reads succeed before one times out, is up to the
 environment.
 */
module Channels {
  import opened EventLog
  import opened Identities
  import opened RecordLog
  import opened ReplayEngine

  datatype RRMode = RecordMode | ReplayMode | NoRR

  datatype DesyncMode = PanicOnDesync | KeepGoing

  /** Result of a receive that records or replays (`desync::Result<Result<T, E>>`). */
  datatype RRResult<T> = Value(value: T) | Reported(error: RecvError) | Desynced(desync: DesyncError)

  /** What the user sees of a receive. */
  datatype UserResult<T> = UserValue(value: T) | UserError(error: RecvError) | Panicked

  datatype Polled = Found | NotFound | PollPanicked

  /** What the receive functions make of a failed read. */
  function WaitFailure(e: ReadError): DesyncError {
    match e
    case TimedOut => TimedOutWaiting
    case HungUp => DisconnectedWhileWaiting
  }

  /** The messages delivered so far from each sender are the first that it sent, and the rest is pending. */
  ghost predicate Accounted<T>(sent: Wire<T>, delivered: Wire<T>, buffer: Buffer<T>, wire: Wire<T>) {
    forall s :: From(sent, s) == From(delivered, s) + Pending(buffer, wire, s)
  }

  /** Delivering the head of one pending queue keeps the account. */
  lemma DeliveryAccounted<T>(sent: Wire<T>, delivered: Wire<T>, s: Path, buffer: Buffer<T>, wire: Wire<T>,
      after: Received<T>)
    requires Accounted(sent, delivered, buffer, wire) && DequeuesOnly(s, buffer, wire, after)
    ensures var more := if after.result.Got? then [DetMessage(s, after.result.value)] else [];
            Accounted(sent, delivered + more, after.buffer, after.wire)
  {
    if after.result.Got? {
      var m := DetMessage(s, after.result.value);
      forall u
        ensures From(sent, u) == From(delivered + [m], u) + Pending(after.buffer, after.wire, u)
      {
        assert From(sent, u) == From(delivered, u) + Pending(buffer, wire, u);
        FromAppend(delivered, [m], u);
        FromOne(m, u);
        Regroup(From(delivered, u), Only(m, u), Pending(after.buffer, after.wire, u));
        NothingAdded(From(delivered, u));
      }
    } else {
      assert delivered + [] == delivered;
    }
  }

  /** So does a message that arrives. */
  lemma ArrivalAccounted<T>(sent: Wire<T>, delivered: Wire<T>, buffer: Buffer<T>, wire: Wire<T>, m: DetMessage<T>)
    requires Accounted(sent, delivered, buffer, wire)
    ensures Accounted(sent + [m], delivered, buffer, wire + [m])
  {
    forall s
      ensures From(sent + [m], s) == From(delivered, s) + Pending(buffer, wire + [m], s)
    {
      FromAppend(sent, [m], s);
      FromOne(m, s);
      Arrival(buffer, wire, m, s);
      assert From(sent, s) == From(delivered, s) + Pending(buffer, wire, s);
      Regroup(From(delivered, s), Pending(buffer, wire, s), Only(m, s));
    }
  }

  lemma SameDequeue<T>(s: Path, b1: Buffer<T>, w1: Wire<T>, b2: Buffer<T>, w2: Wire<T>, after: Received<T>)
    requires SamePending(b2, w2, b1, w1) && DequeuesOnly(s, b2, w2, after)
    ensures DequeuesOnly(s, b1, w1, after)
  {
    assert Pending(b2, w2, s) == Pending(b1, w1, s);
    forall u | u != s
      ensures Pending(b1, w1, u) == Pending(after.buffer, after.wire, u)
    {
      assert Pending(b2, w2, u) == Pending(b1, w1, u);
    }
  }

  /** Every account means first-in, first-out per sender, without loss or duplication. */
  lemma AccountIsFifo<T>(sent: Wire<T>, delivered: Wire<T>, buffer: Buffer<T>, wire: Wire<T>, s: Path)
    requires Accounted(sent, delivered, buffer, wire)
    ensures From(delivered, s) <= From(sent, s)
    ensures From(sent, s)[|From(delivered, s)|..] == Pending(buffer, wire, s)
  {
    assert From(sent, s) == From(delivered, s) + Pending(buffer, wire, s);
  }

  /** Any buffered message may be delivered: it is the head of its sender's pending queue. */
  lemma BufferedIsNext<T>(buffer: Buffer<T>, wire: Wire<T>, s: Path)
    requires Buffered(buffer, s) != []
    ensures DequeuesOnly(s, buffer, wire, Received(Got(buffer[s][0]), buffer[s := buffer[s][1..]], wire))
  {
    RecvExpectedRefines(s, buffer, wire, 0, false);
  }

  /** With nothing buffered, the head of the wire may be delivered. */
  lemma WireHeadIsNext<T>(buffer: Buffer<T>, wire: Wire<T>)
    requires wire != [] && Buffered(buffer, wire[0].sender) == []
    ensures DequeuesOnly(wire[0].sender, buffer, wire, Received(Got(wire[0].value), buffer, wire[1..]))
  {
    NothingAdded([wire[0].value]);
    NothingAdded(From(wire, wire[0].sender));
    NothingAdded(From(wire[1..], wire[0].sender));
    forall u | u != wire[0].sender
      ensures Pending(buffer, wire, u) == Pending(buffer, wire[1..], u)
    {
      NothingAdded(From(wire[1..], u));
    }
  }

  /** States with the same pending queues have both nothing left, or neither. */
  lemma SameEmptiness<T>(b1: Buffer<T>, w1: Wire<T>, b2: Buffer<T>, w2: Wire<T>)
    requires SamePending(b1, w1, b2, w2)
    ensures Drained(b1) && w1 == [] <==> Drained(b2) && w2 == []
  {
    if Drained(b1) && w1 == [] {
      forall s
        ensures Pending(b2, w2, s) == []
      {
        assert Pending(b1, w1, s) == Pending(b2, w2, s);
      }
      NothingPending(b2, w2);
    }
    if Drained(b2) && w2 == [] {
      forall s
        ensures Pending(b1, w1, s) == []
      {
        assert Pending(b1, w1, s) == Pending(b2, w2, s);
      }
      NothingPending(b1, w1);
    }
  }

  class Receiver<T> {
    var buffer: Buffer<T>
    var wire: Wire<T>
    var hungUp: bool
    const metadata: Metadata
    const mode: RRMode

    ghost var sent: Wire<T>       // everything that ever came on the wire
    ghost var delivered: Wire<T>  // everything given to the user, with its sender

    ghost predicate Valid()
      reads this
    {
      && Accounted(sent, delivered, buffer, wire)
      && (mode != ReplayMode ==> Drained(buffer))
    }

    constructor (metadata: Metadata, mode: RRMode)
      ensures Valid() && this.metadata == metadata && this.mode == mode
      ensures buffer == map[] && wire == [] && sent == [] && delivered == [] && !hungUp
    {
      this.metadata, this.mode := metadata, mode;
      buffer, wire, hungUp, sent, delivered := map[], [], false, [], [];
    }

    /** What a waiting read makes of a channel that has hung up: the ipc receivers keep trying until they time out. */
    predicate SeesHangUp()
      reads this
    {
      hungUp && !IsIpc(metadata.variant)
    }

    /** A message arrives. */
    method Arrive(m: DetMessage<T>)
      modifies `wire, `sent
      ensures old(Valid()) ==> Valid()
      ensures wire == old(wire) + [m] && sent == old(sent) + [m]
    {
      if Accounted(sent, delivered, buffer, wire) {
        ArrivalAccounted(sent, delivered, buffer, wire, m);
      }
      wire := wire + [m];
      sent := sent + [m];
    }

    /** Messages arrive one after the other. */
    method ArriveAll(ms: Wire<T>)
      modifies `wire, `sent
      ensures old(Valid()) ==> Valid()
      ensures wire == old(wire) + ms && sent == old(sent) + ms
    {
      var i := 0;
      while i < |ms|
        invariant 0 <= i <= |ms|
        invariant old(Valid()) ==> Valid()
        invariant wire == old(wire) + ms[..i] && sent == old(sent) + ms[..i]
      {
        Arrive(ms[i]);
        i := i + 1;
      }
      assert ms[..i] == ms;
    }

    /** `recv_expected_message`. Nothing is delivered yet: select polls with it, too. */
    method RecvExpectedMessage(s: Path, patience: nat) returns (r: ReadResult<T>)
      modifies `buffer, `wire
      ensures Received(r, buffer, wire) == RecvExpected(s, old(buffer), old(wire), patience, SeesHangUp())
      ensures DequeuesOnly(s, old(buffer), old(wire), Received(r, buffer, wire))
    {
      RecvExpectedRefines(s, buffer, wire, patience, SeesHangUp());
      if s in buffer && buffer[s] != [] {
        r := Got(buffer[s][0]);
        buffer := buffer[s := buffer[s][1..]];
        return;
      }
      var left := patience;
      while true
        invariant Scan(s, buffer, wire, left, SeesHangUp()) ==
                  RecvExpected(s, old(buffer), old(wire), patience, SeesHangUp())
        decreases |wire|
      {
        if wire == [] || left == 0 {
          return Nothing(ReadFailure(wire, left, SeesHangUp()));
        }
        var m := wire[0];
        wire, left := wire[1..], left - 1;
        if m.sender == s {
          return Got(m.value);
        }
        buffer := Put(buffer, m.sender, m.value);
      }
    }

    /** Reads the real channel, whoever the sender is. */
    method ReadReal() returns (r: Maybe<DetMessage<T>>)
      modifies `wire
      ensures old(wire) == [] ==> r == None && wire == old(wire)
      ensures old(wire) != [] ==> r == Some(old(wire)[0]) && wire == old(wire)[1..]
    {
      if wire == [] {
        return None;
      }
      r := Some(wire[0]);
      wire := wire[1..];
    }

    /** Reads the real channel for the user. With nothing buffered, the message is next in line. */
    method ReadAndDeliver() returns (r: Maybe<DetMessage<T>>)
      requires Drained(buffer)
      modifies `wire, `delivered
      ensures old(Valid()) ==> Valid()
      ensures old(wire) == [] ==> r == None && wire == old(wire) && delivered == old(delivered)
      ensures old(wire) != [] ==>
                && r == Some(old(wire)[0]) && wire == old(wire)[1..] && delivered == old(delivered) + [old(wire)[0]]
                && DequeuesOnly(old(wire)[0].sender, buffer, old(wire), Received(Got(old(wire)[0].value), buffer, wire))
    {
      ghost var wire0 := wire;
      r := ReadReal();
      if r.Some? {
        WireHeadIsNext(buffer, wire0);
        Delivered(r.value, buffer, wire0);
      }
    }

    /** What waiting for a message of `s` comes to. */
    ghost predicate WaitResult(r: RRResult<T>, s: Path, buffer0: Buffer<T>, wire0: Wire<T>, patience: nat)
      reads this
    {
      var pending := Pending(buffer0, wire0, s);
      if Buffered(buffer0, s) != [] || InReach(s, wire0, patience) then
        pending != [] && r == Value(pending[0])
      else if SeesHangUp() && pending == [] && patience > |wire0| then
        r == Desynced(DisconnectedWhileWaiting)
      else
        r == Desynced(TimedOutWaiting)
    }

    /** Waits for the message of the logged sender and delivers it. */
    method WaitForSender(s: Path, patience: nat) returns (r: RRResult<T>)
      requires Valid() && mode == ReplayMode
      modifies `buffer, `wire, `delivered
      ensures Valid() && WaitResult(r, s, old(buffer), old(wire), patience)
      ensures var after := RecvExpected(s, old(buffer), old(wire), patience, SeesHangUp());
              buffer == after.buffer && wire == after.wire
      ensures r.Value? ==>
                && delivered == old(delivered) + [DetMessage(s, r.value)]
                && DequeuesOnly(s, old(buffer), old(wire), Received(Got(r.value), buffer, wire))
      ensures !r.Value? ==> delivered == old(delivered) && SamePending(buffer, wire, old(buffer), old(wire))
    {
      ghost var buffer0, wire0 := buffer, wire;
      RecvExpectedRefines(s, buffer, wire, patience, SeesHangUp());
      HangUpExactly(s, buffer, wire, patience, SeesHangUp());
      var got := RecvExpectedMessage(s, patience);
      DeliveryAccounted(sent, delivered, s, buffer0, wire0, Received(got, buffer, wire));
      if got.Nothing? {
        NothingAdded(delivered);
        return Desynced(WaitFailure(got.error));
      }
      delivered := delivered + [DetMessage(s, got.value)];
      return Value(got.value);
    }

    /** The replay part of `record_replay_recv`: the log decides. */
    method ReplayRecv(kind: RecvKind, recorder: EventRecorder, patience: nat) returns (r: RRResult<T>)
      requires Valid() && recorder.Valid() && mode == ReplayMode
      modifies `buffer, `wire, `delivered, recorder`next, recorder`eventNumber
      ensures recorder.Valid() && Valid()
      ensures recorder.next == old(recorder.next) + if old(recorder.next) < |recorder.log| then 1 else 0
      ensures old(recorder.next) == |recorder.log| ==>
                r == Desynced(DesynchronizedWakeup) && buffer == old(buffer) && wire == old(wire)
      ensures old(recorder.next) < |recorder.log| ==>
                && recorder.next == old(recorder.next) + 1
                && var entry := recorder.log[old(recorder.next)];
                   if !AcceptsRecv(metadata.variant, kind, entry.event) then
                     r == Desynced(EventMismatch(entry.event)) && buffer == old(buffer) && wire == old(wire)
                   else if entry.variant != metadata.variant then
                     && r == Desynced(ChannelVariantMismatch(entry.variant, metadata.variant))
                     && buffer == old(buffer) && wire == old(wire)
                   else if entry.chan != metadata.id then
                     r == Desynced(ChannelMismatch(entry.chan, metadata.id)) && buffer == old(buffer) && wire == old(wire)
                   else
                     match ReplayOf(entry.event)
                     case Report(x) => r == Reported(x) && buffer == old(buffer) && wire == old(wire)
                     case WaitFor(s) =>
                       var after := RecvExpected(s, old(buffer), old(wire), patience, SeesHangUp());
                       && buffer == after.buffer && wire == after.wire
                       && WaitResult(r, s, old(buffer), old(wire), patience)
                       && (r.Value? ==> DequeuesOnly(s, old(buffer), old(wire), Received(Got(r.value), buffer, wire)))
      ensures r.Value? ==> exists s ::
                && delivered == old(delivered) + [DetMessage(s, r.value)]
                && DequeuesOnly(s, old(buffer), old(wire), Received(Got(r.value), buffer, wire))
      ensures !r.Value? ==> delivered == old(delivered) && SamePending(buffer, wire, old(buffer), old(wire))
    {
      var fetched := recorder.GetLogEntry();
      if fetched.NoEntry? {
        // the thread sleeps here until some thread desynchronises
        return Desynced(DesynchronizedWakeup);
      }
      var entry := fetched.entry;
      var c := CheckEntry(AcceptsRecv(metadata.variant, kind, entry.event), entry, metadata);
      if c.Bad? {
        return Desynced(c.error);
      }
      match ReplayOf(entry.event) {
        case Report(x) => return Reported(x);
        case WaitFor(s) =>
          r := WaitForSender(s, patience);
      }
    }

    /**
     `record_replay_recv`. `e` is the error that the real channel reports when it has no message; `patience`
     is how long a replay waits.
     */
    method RecordReplayRecv(kind: RecvKind, recorder: EventRecorder, e: RecvError, patience: nat)
      returns (r: RRResult<T>)
      requires Valid() && recorder.Valid()
      modifies this, recorder
      ensures recorder.Valid() && recorder.flushed == old(recorder.flushed)
      ensures sent == old(sent) && hungUp == old(hungUp)
      ensures mode != ReplayMode ==> buffer == old(buffer) && recorder.next == old(recorder.next)
      // Record: the message or error is logged, with the sender of the message.
      ensures mode == RecordMode && old(wire) != [] ==>
                && wire == old(wire)[1..]
                && (!recorder.flushed ==> r == Value(old(wire)[0].value))
                && recorder.written == old(recorder.written) +
                   if recorder.flushed then [] else
                     [RecordEntry(SuccEvent(metadata.variant, kind, old(wire)[0].sender), metadata.variant, metadata.id)]
      ensures mode == RecordMode && old(wire) == [] ==>
                && wire == []
                && (!recorder.flushed ==> r == Reported(e))
                && recorder.written == old(recorder.written) +
                   if recorder.flushed then [] else
                     [RecordEntry(ErrEvent(metadata.variant, kind, e), metadata.variant, metadata.id)]
      ensures mode == RecordMode && recorder.flushed ==> r == Desynced(CannotWriteEventToLog)
      // Replay: the log decides.
      ensures mode == ReplayMode ==> recorder.written == old(recorder.written)
      ensures mode == ReplayMode && old(recorder.next) == |recorder.log| ==>
                r == Desynced(DesynchronizedWakeup) && buffer == old(buffer) && wire == old(wire)
      ensures mode == ReplayMode && old(recorder.next) < |recorder.log| ==>
                && recorder.next == old(recorder.next) + 1
                && var entry := recorder.log[old(recorder.next)];
                   if !AcceptsRecv(metadata.variant, kind, entry.event) then
                     r == Desynced(EventMismatch(entry.event)) && buffer == old(buffer) && wire == old(wire)
                   else if entry.variant != metadata.variant then
                     && r == Desynced(ChannelVariantMismatch(entry.variant, metadata.variant))
                     && buffer == old(buffer) && wire == old(wire)
                   else if entry.chan != metadata.id then
                     r == Desynced(ChannelMismatch(entry.chan, metadata.id)) && buffer == old(buffer) && wire == old(wire)
                   else
                     match ReplayOf(entry.event)
                     case Report(x) => r == Reported(x) && buffer == old(buffer) && wire == old(wire)
                     case WaitFor(s) =>
                       var after := RecvExpected(s, old(buffer), old(wire), patience, SeesHangUp());
                       && buffer == after.buffer && wire == after.wire
                       && WaitResult(r, s, old(buffer), old(wire), patience)
                       && (r.Value? ==> DequeuesOnly(s, old(buffer), old(wire), Received(Got(r.value), buffer, wire)))
      ensures mode == NoRR ==>
                && recorder.written == old(recorder.written)
                && (old(wire) == [] ==> r == Reported(e) && wire == [])
                && (old(wire) != [] ==> r == Value(old(wire)[0].value) && wire == old(wire)[1..])
      // Per-sender order: what the user gets comes off the head of one sender's pending queue.
      ensures r.Value? ==> exists s ::
                && delivered == old(delivered) + [DetMessage(s, r.value)]
                && DequeuesOnly(s, old(buffer), old(wire), Received(Got(r.value), buffer, wire))
      ensures !r.Value? ==> delivered == old(delivered)
      ensures !r.Value? && !(mode == RecordMode && recorder.flushed) ==> SamePending(buffer, wire, old(buffer), old(wire))
      ensures !(mode == RecordMode && recorder.flushed) ==> Valid()
    {
      match mode {
        case RecordMode =>
          ghost var buffer0, wire0 := buffer, wire;
          var m := ReadReal();
          var event :=
            if m.Some? then SuccEvent(metadata.variant, kind, m.value.sender) else ErrEvent(metadata.variant, kind, e);
          var c := recorder.WriteEventToRecord(event, metadata);
          if c.Bad? {
            return Desynced(c.error);
          }
          if m.None? {
            return Reported(e);
          }
          WireHeadIsNext(buffer0, wire0);
          Delivered(m.value, buffer0, wire0);
          return Value(m.value.value);
        case ReplayMode =>
          r := ReplayRecv(kind, recorder, patience);
        case NoRR =>
          var m := ReadAndDeliver();
          return if m.None? then Reported(e) else Value(m.value.value);
      }
    }

    /** Enters a delivery in the account. */
    ghost method Delivered(m: DetMessage<T>, buffer0: Buffer<T>, wire0: Wire<T>)
      requires DequeuesOnly(m.sender, buffer0, wire0, Received(Got(m.value), buffer, wire))
      modifies `delivered
      ensures delivered == old(delivered) + [m]
      ensures Accounted(sent, old(delivered), buffer0, wire0) ==> Accounted(sent, delivered, buffer, wire)
    {
      if Accounted(sent, delivered, buffer0, wire0) {
        DeliveryAccounted(sent, delivered, m.sender, buffer0, wire0, Received(Got(m.value), buffer, wire));
      }
      delivered := delivered + [m];
    }

    /** Whether anything is buffered from anyone. */
    method BufferedValue() returns (found: bool)
      ensures found <==> !Drained(buffer)
    {
      var keys := buffer.Keys;
      while keys != {}
        invariant keys <= buffer.Keys
        invariant forall s | s in buffer && s !in keys :: buffer[s] == []
        decreases |keys|
      {
        var s :| s in keys;
        if buffer[s] != [] {
          return true;
        }
        keys := keys - {s};
      }
      return false;
    }

    /** Takes the first message of some non-empty queue, if there is one. */
    method GetBufferedValue() returns (v: Maybe<T>)
      modifies `buffer, `delivered
      ensures old(Valid()) ==> Valid()
      ensures v.None? <==> Drained(old(buffer))
      ensures v.None? ==> buffer == old(buffer) && delivered == old(delivered)
      ensures v.Some? ==> exists s ::
                && Buffered(old(buffer), s) != []
                && v.value == old(buffer)[s][0]
                && buffer == old(buffer)[s := old(buffer)[s][1..]]
                && delivered == old(delivered) + [DetMessage(s, v.value)]
                && DequeuesOnly(s, old(buffer), wire, Received(Got(v.value), buffer, wire))
    {
      var keys := buffer.Keys;
      while keys != {}
        invariant keys <= buffer.Keys
        invariant forall s | s in buffer && s !in keys :: buffer[s] == []
        decreases |keys|
      {
        var s :| s in keys;
        if buffer[s] != [] {
          v := Some(buffer[s][0]);
          ghost var buffer0 := buffer;
          BufferedIsNext(buffer, wire, s);
          buffer := buffer[s := buffer[s][1..]];
          Delivered(DetMessage(s, v.value), buffer0, wire);
          assert Buffered(old(buffer), s) != [];
          return;
        }
        keys := keys - {s};
      }
      return None;
    }

    /**
     `handle_desync`: give up on the log. Buffered messages go first; then the real channel is read, with
     error `e` if it has nothing.
     */
    method HandleDesync(desyncMode: DesyncMode, e: RecvError) returns (r: UserResult<T>)
      modifies `buffer, `wire, `delivered
      ensures old(Valid()) ==> Valid()
      ensures r.Panicked? <==> desyncMode.PanicOnDesync?
      ensures r.UserError? ==> r.error == e && Drained(old(buffer)) && old(wire) == []
      ensures !r.UserValue? ==> buffer == old(buffer) && wire == old(wire) && delivered == old(delivered)
      ensures r.UserValue? ==> exists s ::
                && delivered == old(delivered) + [DetMessage(s, r.value)]
                && DequeuesOnly(s, old(buffer), old(wire), Received(Got(r.value), buffer, wire))
                && (Drained(old(buffer)) || wire == old(wire))
      ensures desyncMode.KeepGoing? && Drained(old(buffer)) ==>
                if old(wire) == [] then r == UserError(e)
                else r == UserValue(old(wire)[0].value) && wire == old(wire)[1..]
    {
      if desyncMode.PanicOnDesync? {
        return Panicked;
      }
      var v := GetBufferedValue();
      if v.Some? {
        return UserValue(v.value);
      }
      var m := ReadAndDeliver();
      return if m.None? then UserError(e) else UserValue(m.value.value);
    }

    /** A record run whose log has been taken away. */
    predicate LogIsLost(recorder: EventRecorder)
      reads recorder
    {
      mode == RecordMode && recorder.flushed
    }

    /** The next log entry is one of this receive. */
    predicate EntryFits(kind: RecvKind, recorder: EventRecorder)
      reads recorder
    {
      && recorder.next < |recorder.log|
      && var entry := recorder.log[recorder.next];
         AcceptsRecv(metadata.variant, kind, entry.event) && entry.variant == metadata.variant && entry.chan == metadata.id
    }

    /** The log of a record run gets the event that the receive had. */
    function Logs(kind: RecvKind, e: RecvError): RecordEntry
      reads this
    {
      RecordEntry(if wire == [] then ErrEvent(metadata.variant, kind, e) else SuccEvent(metadata.variant, kind, wire[0].sender),
                  metadata.variant, metadata.id)
    }

    /**
     `recv`, `try_recv` and `recv_timeout`: record or replay, and on a desynchronisation panic or go on.
     Every way through delivers at most one message, and that from the head of its sender's pending queue.
     The exception is a record run whose log has already been flushed: there the message read is lost, and
     the user gets the one after it.
     */
    method Receive(kind: RecvKind, recorder: EventRecorder, desyncMode: DesyncMode, e: RecvError, patience: nat)
      returns (r: UserResult<T>)
      requires Valid() && recorder.Valid()
      modifies this, recorder
      ensures recorder.Valid() && sent == old(sent)
      ensures !old(LogIsLost(recorder)) ==> Valid()
      ensures r.UserValue? && !old(LogIsLost(recorder)) ==> exists s ::
                && delivered == old(delivered) + [DetMessage(s, r.value)]
                && DequeuesOnly(s, old(buffer), old(wire), Received(Got(r.value), buffer, wire))
      ensures !r.UserValue? && !old(LogIsLost(recorder)) ==>
                delivered == old(delivered) && SamePending(buffer, wire, old(buffer), old(wire))
      ensures old(LogIsLost(recorder)) ==>
                if desyncMode.PanicOnDesync? then r == Panicked
                else r == if |old(wire)| >= 2 then UserValue(old(wire)[1].value) else UserError(e)
      // Without a log to follow, the user gets what the real channel has.
      ensures mode != ReplayMode && !old(LogIsLost(recorder)) ==>
                r == if old(wire) == [] then UserError(e) else UserValue(old(wire)[0].value)
      ensures recorder.written == old(recorder.written) +
                if mode == RecordMode && !old(LogIsLost(recorder)) then [old(Logs(kind, e))] else []
      ensures recorder.next == old(recorder.next) +
                if mode == ReplayMode && old(recorder.next) < |recorder.log| then 1 else 0
      ensures mode == ReplayMode && !old(EntryFits(kind, recorder)) ==>
                && (r.Panicked? <==> desyncMode.PanicOnDesync?)
                && (desyncMode.KeepGoing? && !Drained(old(buffer)) ==> r.UserValue? && wire == old(wire))
                && (desyncMode.KeepGoing? && Drained(old(buffer)) ==>
                      r == if old(wire) == [] then UserError(e) else UserValue(old(wire)[0].value))
      ensures mode == ReplayMode && old(EntryFits(kind, recorder)) ==>
                match ReplayOf(recorder.log[old(recorder.next)].event)
                case Report(x) => r == UserError(x) && buffer == old(buffer) && wire == old(wire)
                case WaitFor(s) =>
                  if Buffered(old(buffer), s) != [] || InReach(s, old(wire), patience) then
                    && r.UserValue?
                    && DequeuesOnly(s, old(buffer), old(wire), Received(Got(r.value), buffer, wire))
                  else
                    && (r.Panicked? <==> desyncMode.PanicOnDesync?)
                    && (r.UserError? <==> desyncMode.KeepGoing? && Drained(old(buffer)) && old(wire) == [])
                    && (r.UserError? ==> r.error == e)
    {
      if mode == ReplayMode {
        r := ReceiveFromLog(kind, recorder, desyncMode, e, patience);
        return;
      }
      var rr := RecordReplayRecv(kind, recorder, e, patience);
      match rr {
        case Value(v) => return UserValue(v);
        case Reported(x) => return UserError(x);
        case Desynced(_) => r := GoOn(desyncMode, e, old(buffer), old(wire));
      }
    }

    /** `recv`, `try_recv` and `recv_timeout` in replay. */
    method ReceiveFromLog(kind: RecvKind, recorder: EventRecorder, desyncMode: DesyncMode, e: RecvError, patience: nat)
      returns (r: UserResult<T>)
      requires Valid() && recorder.Valid() && mode == ReplayMode
      modifies `buffer, `wire, `delivered, recorder`next, recorder`eventNumber
      ensures recorder.Valid() && Valid()
      ensures r.UserValue? ==> exists s ::
                && delivered == old(delivered) + [DetMessage(s, r.value)]
                && DequeuesOnly(s, old(buffer), old(wire), Received(Got(r.value), buffer, wire))
      ensures !r.UserValue? ==> delivered == old(delivered) && SamePending(buffer, wire, old(buffer), old(wire))
      ensures recorder.next == old(recorder.next) + if old(recorder.next) < |recorder.log| then 1 else 0
      ensures !old(EntryFits(kind, recorder)) ==>
                && (r.Panicked? <==> desyncMode.PanicOnDesync?)
                && (desyncMode.KeepGoing? && !Drained(old(buffer)) ==> r.UserValue? && wire == old(wire))
                && (desyncMode.KeepGoing? && Drained(old(buffer)) ==>
                      r == if old(wire) == [] then UserError(e) else UserValue(old(wire)[0].value))
      ensures old(EntryFits(kind, recorder)) ==>
                match ReplayOf(recorder.log[old(recorder.next)].event)
                case Report(x) => r == UserError(x) && buffer == old(buffer) && wire == old(wire)
                case WaitFor(s) =>
                  if Buffered(old(buffer), s) != [] || InReach(s, old(wire), patience) then
                    && r.UserValue?
                    && DequeuesOnly(s, old(buffer), old(wire), Received(Got(r.value), buffer, wire))
                  else
                    && (r.Panicked? <==> desyncMode.PanicOnDesync?)
                    && (r.UserError? <==> desyncMode.KeepGoing? && Drained(old(buffer)) && old(wire) == [])
                    && (r.UserError? ==> r.error == e)
    {
      var rr := ReplayRecv(kind, recorder, patience);
      match rr {
        case Value(v) => return UserValue(v);
        case Reported(x) => return UserError(x);
        case Desynced(_) =>
          SameEmptiness(buffer, wire, old(buffer), old(wire));
          r := GoOn(desyncMode, e, old(buffer), old(wire));
      }
    }

    /** `handle_desync`, seen from a state with the same pending queues. */
    method GoOn(desyncMode: DesyncMode, e: RecvError, ghost buffer0: Buffer<T>, ghost wire0: Wire<T>)
      returns (r: UserResult<T>)
      modifies `buffer, `wire, `delivered
      ensures old(Valid()) ==> Valid()
      ensures r.Panicked? <==> desyncMode.PanicOnDesync?
      ensures r.UserValue? && SamePending(old(buffer), old(wire), buffer0, wire0) ==> exists s ::
                && delivered == old(delivered) + [DetMessage(s, r.value)]
                && DequeuesOnly(s, buffer0, wire0, Received(Got(r.value), buffer, wire))
      ensures !r.UserValue? ==> delivered == old(delivered) && buffer == old(buffer) && wire == old(wire)
      ensures desyncMode.KeepGoing? && !Drained(old(buffer)) ==> r.UserValue? && wire == old(wire)
      ensures desyncMode.KeepGoing? && Drained(old(buffer)) ==>
                r == if old(wire) == [] then UserError(e) else UserValue(old(wire)[0].value)
    {
      r := HandleDesync(desyncMode, e);
      if r.UserValue? && SamePending(old(buffer), old(wire), buffer0, wire0) {
        ghost var s :| delivered == old(delivered) + [DetMessage(s, r.value)]
                       && DequeuesOnly(s, old(buffer), old(wire), Received(Got(r.value), buffer, wire));
        SameDequeue(s, buffer0, wire0, old(buffer), old(wire), Received(Got(r.value), buffer, wire));
      }
    }

    /**
     `poll_entry`: is there a message from `s`? A message found on the wire is put in the buffer for later.
     A channel that hangs up meanwhile is not expected, and panics: exactly if it has hung up, nothing is pending from
     `s`, and patience reaches past all that is on the wire.
     */
    method PollEntry(s: Path, patience: nat) returns (p: Polled)
      modifies `buffer, `wire
      ensures old(Valid()) && mode == ReplayMode ==> Valid()
      ensures SamePending(buffer, wire, old(buffer), old(wire))
      ensures p == Found <==> Buffered(old(buffer), s) != [] || InReach(s, old(wire), patience)
      ensures p == Found ==> Buffered(buffer, s) != []
      ensures p == PollPanicked <==>
                SeesHangUp() && Pending(old(buffer), old(wire), s) == [] && patience > |old(wire)|
      ensures p == PollPanicked ==> wire == [] && Pending(buffer, wire, s) == []
    {
      if s in buffer && buffer[s] != [] {
        return Found;
      }
      ghost var buffer0, wire0 := buffer, wire;
      PollRefines(s, buffer, wire, patience, SeesHangUp());
      HangUpExactly(s, buffer, wire, patience, SeesHangUp());
      var r := RecvExpectedMessage(s, patience);
      match r {
        case Got(m) =>
          buffer := Put(buffer, s, m);
          p := Found;
        case Nothing(TimedOut) => p := NotFound;
        case Nothing(HungUp) => p := PollPanicked;
      }
      if Accounted(sent, delivered, buffer0, wire0) {
        SameAccount(sent, delivered, buffer0, wire0, buffer, wire);
      }
    }
  }

  /**
   The poll that panics, and the one that does not: the channel has hung up, and all that is left is a message of
   another sender. With patience for one read the poll times out, with patience for two it meets the hang-up.
   */
  lemma HangUpDuringPoll<T>(s: Path, other: Path, v: T)
    requires s != other
    ensures var wire := [DetMessage(other, v)];
            && Pending(map[], wire, s) == []
            && RecvExpected(s, map[], wire, 1, true).result == Nothing(TimedOut)
            && RecvExpected(s, map[], wire, 2, true).result == Nothing(HungUp)
  {
    var wire := [DetMessage(other, v)];
    assert wire[1..] == [] && From(wire, s) == [] + From(wire[1..], s);
    assert Buffered<T>(map[], s) == [] && Pending(map[], wire, s) == [] + From(wire, s);
    HangUpExactly(s, map[], wire, 1, true);
    HangUpExactly(s, map[], wire, 2, true);
    assert RecvExpected(s, map[], wire, 1, true) == Scan(s, Put(map[], other, v), wire[1..], 0, true);
  }

  lemma SameAccount<T>(sent: Wire<T>, delivered: Wire<T>, b1: Buffer<T>, w1: Wire<T>, b2: Buffer<T>, w2: Wire<T>)
    requires Accounted(sent, delivered, b1, w1)
    requires SamePending(b2, w2, b1, w1)
    ensures Accounted(sent, delivered, b2, w2)
  {
    forall u
      ensures From(sent, u) == From(delivered, u) + Pending(b2, w2, u)
    {
      assert Pending(b2, w2, u) == Pending(b1, w1, u);
    }
  }

  // ---- Sending ----

  /** Result of a send that records or replays; the message comes back with a desynchronisation. */
  datatype SendResult = Sent | SendDesynced(desync: DesyncError) | SendPanicked

  class Sender<T> {
    const peer: Receiver<T>
    const metadata: Metadata
    const mode: RRMode

    constructor (peer: Receiver<T>, mode: RRMode)
      ensures this.peer == peer && this.metadata == peer.metadata && this.mode == mode
    {
      this.peer, this.metadata, this.mode := peer, peer.metadata, mode;
    }

    /**
     `record_replay_send`, by thread `me`. In record mode the message is sent and then logged. In replay mode
     it is sent only if the log has this send as its next entry: a thread that has run off its log sleeps
     without sending. A send that cannot be logged, because the log has been flushed, panics.
     */
    method RecordReplaySend(msg: T, me: Path, recorder: EventRecorder, programDesynced: bool) returns (r: SendResult)
      requires recorder.Valid()
      modifies peer`wire, peer`sent, recorder
      ensures recorder.Valid() && (old(peer.Valid()) ==> peer.Valid())
      ensures r.SendPanicked? <==> mode == RecordMode && !programDesynced && old(recorder.flushed)
      ensures r.Sent? || r.SendPanicked? <==>
                !programDesynced &&
                (mode == ReplayMode ==>
                   old(recorder.next) < |recorder.log| &&
                   recorder.log[old(recorder.next)] == RecordEntry(SendEvent(metadata.variant), metadata.variant, metadata.id))
      ensures peer.wire == old(peer.wire) + if r.Sent? || r.SendPanicked? then [DetMessage(me, msg)] else []
      ensures recorder.written == old(recorder.written) +
                if mode == RecordMode && !programDesynced && r.Sent?
                then [RecordEntry(SendEvent(metadata.variant), metadata.variant, metadata.id)] else []
      ensures recorder.next == old(recorder.next) +
                if mode == ReplayMode && !programDesynced && old(recorder.next) < |recorder.log| then 1 else 0
      ensures r.SendDesynced? ==>
                if programDesynced then r.desync == Desynchronized
                else if old(recorder.next) == |recorder.log| then r.desync == DesynchronizedWakeup
                else
                  var entry := recorder.log[old(recorder.next)];
                  if entry.event != SendEvent(metadata.variant) then r.desync == EventMismatch(entry.event)
                  else if entry.variant != metadata.variant then
                    r.desync == ChannelVariantMismatch(entry.variant, metadata.variant)
                  else r.desync == ChannelMismatch(entry.chan, metadata.id)
    {
      if programDesynced {
        return SendDesynced(Desynchronized);
      }
      match mode {
        case RecordMode =>
          peer.Arrive(DetMessage(me, msg));
          var c := recorder.WriteEventToRecord(SendEvent(metadata.variant), metadata);
          if c.Bad? {
            return SendPanicked;
          }
        case ReplayMode =>
          var fetched := recorder.GetLogEntry();
          if fetched.NoEntry? {
            // the thread sleeps here until some thread desynchronises
            return SendDesynced(DesynchronizedWakeup);
          }
          var entry := fetched.entry;
          var c := CheckEntry(entry.event == SendEvent(metadata.variant), entry, metadata);
          if c.Bad? {
            return SendDesynced(c.error);
          }
          peer.Arrive(DetMessage(me, msg));
        case NoRR =>
          peer.Arrive(DetMessage(me, msg));
      }
      return Sent;
    }
  }
}
