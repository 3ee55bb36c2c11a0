/**
 The replay receive engine (`recv_expected_message`, src/rr.rs:253-307) on values.

 A receiver has a FIFO wire and a buffer of early messages, one queue per sender. Together they stand
 for one pending queue per sender: what is buffered from that sender, then what is on the wire from it.
 The functions below are what the code does to buffer and wire; the lemmas say what that means for the
 pending queues. `patience` is the number of reads that succeed before the read closure times out.
 */
module ReplayEngine {
  import opened Identities

  datatype DetMessage<+T> = DetMessage(sender: Path, value: T)

  /** Messages that came early, by sender. An absent sender is one with nothing buffered. */
  type Buffer<T> = map<Path, seq<T>>

  type Wire<T> = seq<DetMessage<T>>

  /** Why a read closure gives no message (`RecvErrorRR`). */
  datatype ReadError = TimedOut | HungUp

  datatype ReadResult<+T> = Got(value: T) | Nothing(error: ReadError)

  datatype Received<T> = Received(result: ReadResult<T>, buffer: Buffer<T>, wire: Wire<T>)

  function Buffered<T>(buffer: Buffer<T>, s: Path): seq<T> {
    if s in buffer then buffer[s] else []
  }

  function Put<T>(buffer: Buffer<T>, s: Path, v: T): Buffer<T> {
    buffer[s := Buffered(buffer, s) + [v]]
  }

  /** The messages of one sender on a wire, in order. */
  function From<T>(wire: Wire<T>, s: Path): seq<T> {
    if wire == [] then []
    else (if wire[0].sender == s then [wire[0].value] else []) + From(wire[1..], s)
  }

  function Pending<T>(buffer: Buffer<T>, wire: Wire<T>, s: Path): seq<T> {
    Buffered(buffer, s) + From(wire, s)
  }

  /** Nothing is buffered from anyone. */
  ghost predicate Drained<T>(buffer: Buffer<T>) {
    forall s | s in buffer :: buffer[s] == []
  }

  /** One read of the real channel fails once it is empty or patience has run out. */
  function ReadFailure<T>(wire: Wire<T>, patience: nat, hungUp: bool): ReadError {
    if wire == [] && patience > 0 && hungUp then HungUp else TimedOut
  }

  /** The loop: read until the expected sender's message comes, buffering every other message. */
  function Scan<T>(s: Path, buffer: Buffer<T>, wire: Wire<T>, patience: nat, hungUp: bool): Received<T>
    decreases |wire|
  {
    if wire == [] || patience == 0 then Received(Nothing(ReadFailure(wire, patience, hungUp)), buffer, wire)
    else if wire[0].sender == s then Received(Got(wire[0].value), buffer, wire[1..])
    else Scan(s, Put(buffer, wire[0].sender, wire[0].value), wire[1..], patience - 1, hungUp)
  }

  /** `recv_expected_message`: the buffer first, then the wire. */
  function RecvExpected<T>(s: Path, buffer: Buffer<T>, wire: Wire<T>, patience: nat, hungUp: bool): Received<T> {
    if Buffered(buffer, s) != [] then
      Received(Got(buffer[s][0]), buffer[s := buffer[s][1..]], wire)
    else
      Scan(s, buffer, wire, patience, hungUp)
  }

  // ---- What a receive means for the pending queues ----

  lemma Regroup<T>(a: seq<T>, b: seq<T>, c: seq<T>)
    ensures a + (b + c) == a + b + c
  {
  }

  lemma NothingAdded<T>(a: seq<T>)
    ensures a + [] == a && [] + a == a
  {
  }

  /** What one message is to a sender. */
  function Only<T>(m: DetMessage<T>, s: Path): seq<T> {
    if m.sender == s then [m.value] else []
  }

  lemma FromFirst<T>(a: Wire<T>, b: Wire<T>, s: Path)
    requires a != []
    ensures From(a, s) == Only(a[0], s) + From(a[1..], s)
    ensures From(a + b, s) == Only(a[0], s) + From(a[1..] + b, s)
  {
    assert (a + b)[0] == a[0] && (a + b)[1..] == a[1..] + b;
  }

  lemma {:induction false} FromAppend<T>(a: Wire<T>, b: Wire<T>, s: Path)
    ensures From(a + b, s) == From(a, s) + From(b, s)
  {
    if a == [] {
      NothingAdded(b);
      NothingAdded(From(b, s));
    } else {
      FromFirst(a, b, s);
      FromAppend(a[1..], b, s);
      Regroup(Only(a[0], s), From(a[1..], s), From(b, s));
    }
  }

  lemma FromOne<T>(m: DetMessage<T>, s: Path)
    ensures From([m], s) == Only(m, s)
  {
    assert [m][1..] == [];
    NothingAdded(Only(m, s));
  }

  /** An arriving message joins the end of its sender's pending queue and touches no other. */
  lemma Arrival<T>(buffer: Buffer<T>, wire: Wire<T>, m: DetMessage<T>, s: Path)
    ensures Pending(buffer, wire + [m], s) == Pending(buffer, wire, s) + if m.sender == s then [m.value] else []
  {
    FromOne(m, s);
    Arrivals(buffer, wire, [m], s);
  }

  lemma Arrivals<T>(buffer: Buffer<T>, wire: Wire<T>, ms: Wire<T>, s: Path)
    ensures Pending(buffer, wire + ms, s) == Pending(buffer, wire, s) + From(ms, s)
  {
    FromAppend(wire, ms, s);
    Regroup(Buffered(buffer, s), From(wire, s), From(ms, s));
  }

  /** Moving the message at the head of the wire into the buffer changes no pending queue, if the sender has
      nothing else to overtake: its buffered messages are older than those on the wire. */
  lemma Buffering<T>(buffer: Buffer<T>, wire: Wire<T>, s: Path)
    requires wire != []
    ensures Pending(Put(buffer, wire[0].sender, wire[0].value), wire[1..], s) == Pending(buffer, wire, s)
  {
    if wire[0].sender == s {
      var rest := From(wire[1..], s);
      assert From(wire, s) == [wire[0].value] + rest;
      Regroup(Buffered(buffer, s), [wire[0].value], rest);
    }
  }

  /** Some read within patience finds a message of `s`. */
  ghost predicate InReach<T>(s: Path, wire: Wire<T>, patience: nat) {
    exists i :: 0 <= i < |wire| && i < patience && wire[i].sender == s
  }

  /** What `after` must be, given the pending queues before, for a receive from `s`. */
  ghost predicate DequeuesOnly<T>(s: Path, buffer: Buffer<T>, wire: Wire<T>, after: Received<T>) {
    && (after.result.Got? ==>
          Pending(buffer, wire, s) == [after.result.value] + Pending(after.buffer, after.wire, s))
    && (after.result.Nothing? ==>
          Pending(buffer, wire, s) == Pending(after.buffer, after.wire, s))
    && (forall u | u != s :: Pending(buffer, wire, u) == Pending(after.buffer, after.wire, u))
  }

  lemma ReachShifts<T>(s: Path, wire: Wire<T>, patience: nat)
    requires wire != [] && patience > 0 && wire[0].sender != s
    ensures InReach(s, wire, patience) <==> InReach(s, wire[1..], patience - 1)
  {
    if InReach(s, wire, patience) {
      var i :| 0 <= i < |wire| && i < patience && wire[i].sender == s;
      assert wire[1..][i - 1].sender == s;
    }
    if InReach(s, wire[1..], patience - 1) {
      var i :| 0 <= i < |wire[1..]| && i < patience - 1 && wire[1..][i].sender == s;
      assert wire[i + 1].sender == s;
    }
  }

  /** A receive from a state with the same pending queues. */
  lemma BufferingDequeues<T>(s: Path, buffer: Buffer<T>, wire: Wire<T>, after: Received<T>)
    requires wire != []
    requires DequeuesOnly(s, Put(buffer, wire[0].sender, wire[0].value), wire[1..], after)
    ensures DequeuesOnly(s, buffer, wire, after)
  {
    Buffering(buffer, wire, s);
    forall u | u != s
      ensures Pending(buffer, wire, u) == Pending(after.buffer, after.wire, u)
    {
      Buffering(buffer, wire, u);
    }
  }

  lemma {:induction false} ScanRefines<T>(s: Path, buffer: Buffer<T>, wire: Wire<T>, patience: nat, hungUp: bool)
    requires Buffered(buffer, s) == []
    ensures DequeuesOnly(s, buffer, wire, Scan(s, buffer, wire, patience, hungUp))
    ensures Scan(s, buffer, wire, patience, hungUp).result.Got? <==> InReach(s, wire, patience)
    ensures Scan(s, buffer, wire, patience, hungUp).result == Nothing(HungUp) ==>
              Scan(s, buffer, wire, patience, hungUp).wire == [] && hungUp && From(wire, s) == []
    ensures Buffered(Scan(s, buffer, wire, patience, hungUp).buffer, s) == []
    decreases |wire|
  {
    if wire == [] || patience == 0 {
    } else if wire[0].sender == s {
      assert From(wire, s) == [wire[0].value] + From(wire[1..], s);
    } else {
      var buffer' := Put(buffer, wire[0].sender, wire[0].value);
      ScanRefines(s, buffer', wire[1..], patience - 1, hungUp);
      BufferingDequeues(s, buffer, wire, Scan(s, buffer', wire[1..], patience - 1, hungUp));
      ReachShifts(s, wire, patience);
      assert From(wire, s) == [] + From(wire[1..], s);
    }
  }

  /**
   Refinement and conservation: a receive from `s` that succeeds returns the head of the pending queue
   of `s` and removes just that; one that fails changes no pending queue, however much it moved from
   the wire to the buffer. It succeeds exactly when something is buffered from `s` or some read within
   patience finds it, and it reports a hang-up only when nothing is pending from `s`.
   */
  lemma RecvExpectedRefines<T>(s: Path, buffer: Buffer<T>, wire: Wire<T>, patience: nat, hungUp: bool)
    ensures var after := RecvExpected(s, buffer, wire, patience, hungUp);
            && DequeuesOnly(s, buffer, wire, after)
            && (after.result.Got? <==> Buffered(buffer, s) != [] || InReach(s, wire, patience))
            && (after.result == Nothing(HungUp) ==> after.wire == [] && hungUp && Pending(buffer, wire, s) == [])
  {
    if Buffered(buffer, s) != [] {
      assert buffer[s] == [buffer[s][0]] + buffer[s][1..];
      Regroup([buffer[s][0]], buffer[s][1..], From(wire, s));
    } else {
      ScanRefines(s, buffer, wire, patience, hungUp);
    }
  }

  lemma {:induction false} FromNonempty<T>(wire: Wire<T>, s: Path)
    ensures From(wire, s) != [] <==> exists i :: 0 <= i < |wire| && wire[i].sender == s
  {
    if wire != [] {
      FromNonempty(wire[1..], s);
      if i :| 0 <= i < |wire[1..]| && wire[1..][i].sender == s {
        assert wire[i + 1].sender == s;
      }
      if i :| 0 <= i < |wire| && wire[i].sender == s {
        assert i == 0 || wire[1..][i - 1].sender == s;
      }
    }
  }

  /** With patience for the whole wire, a receive succeeds exactly when something is pending from `s`. */
  lemma PatientRecv<T>(s: Path, buffer: Buffer<T>, wire: Wire<T>, patience: nat, hungUp: bool)
    requires patience >= |wire|
    ensures RecvExpected(s, buffer, wire, patience, hungUp).result.Got? <==> Pending(buffer, wire, s) != []
  {
    RecvExpectedRefines(s, buffer, wire, patience, hungUp);
    FromNonempty(wire, s);
  }

  /** All pending queues empty means nothing is buffered and nothing is on the wire. */
  lemma NothingPending<T>(buffer: Buffer<T>, wire: Wire<T>)
    ensures (forall s :: Pending(buffer, wire, s) == []) <==> Drained(buffer) && wire == []
  {
    if wire != [] {
      FromNonempty(wire, wire[0].sender);
      assert Pending(buffer, wire, wire[0].sender) != [];
    } else if !Drained(buffer) {
      var s :| s in buffer && buffer[s] != [];
      assert Pending(buffer, wire, s) != [];
    }
  }

  /** A message received from an empty queue and put back is at its head again. */
  lemma PutBack<T>(buffer: Buffer<T>, wire: Wire<T>, s: Path, v: T, u: Path)
    requires Buffered(buffer, s) == []
    ensures Pending(Put(buffer, s, v), wire, u) == (if u == s then [v] else []) + Pending(buffer, wire, u)
  {
    if u != s {
      assert Pending(buffer, wire, u) == [] + Pending(buffer, wire, u);
    }
  }

  ghost predicate SamePending<T>(b1: Buffer<T>, w1: Wire<T>, b2: Buffer<T>, w2: Wire<T>) {
    forall s :: Pending(b1, w1, s) == Pending(b2, w2, s)
  }

  /** Receiving a message and putting it back at the front of its own, empty queue changes nothing pending. */
  lemma PollRefines<T>(s: Path, buffer: Buffer<T>, wire: Wire<T>, patience: nat, hungUp: bool)
    requires Buffered(buffer, s) == []
    ensures var after := RecvExpected(s, buffer, wire, patience, hungUp);
            var kept := if after.result.Got? then Put(after.buffer, s, after.result.value) else after.buffer;
            && SamePending(kept, after.wire, buffer, wire)
            && (after.result.Got? <==> InReach(s, wire, patience))
            && (after.result.Got? ==> Buffered(kept, s) == [after.result.value])
            && (after.result == Nothing(HungUp) ==> after.wire == [] && hungUp && Pending(buffer, wire, s) == [])
  {
    ScanRefines(s, buffer, wire, patience, hungUp);
    var after := RecvExpected(s, buffer, wire, patience, hungUp);
    var kept := if after.result.Got? then Put(after.buffer, s, after.result.value) else after.buffer;
    forall u
      ensures Pending(kept, after.wire, u) == Pending(buffer, wire, u)
    {
      if after.result.Got? {
        PutBack(after.buffer, after.wire, s, after.result.value, u);
      }
      assert u != s ==> Pending(buffer, wire, u) == Pending(after.buffer, after.wire, u);
    }
  }

  /**
   A receive reports a hang-up exactly if the channel has hung up, nothing is pending from the sender, and
   patience reaches past all that is on the wire.
   */
  lemma {:induction false} HangUpExactly<T>(s: Path, buffer: Buffer<T>, wire: Wire<T>, patience: nat, hungUp: bool)
    ensures RecvExpected(s, buffer, wire, patience, hungUp).result == Nothing(HungUp) <==>
              hungUp && Pending(buffer, wire, s) == [] && patience > |wire|
    decreases |wire|
  {
    if Buffered(buffer, s) == [] && wire != [] && patience > 0 && wire[0].sender != s {
      var buffer' := Put(buffer, wire[0].sender, wire[0].value);
      HangUpExactly(s, buffer', wire[1..], patience - 1, hungUp);
    }
  }

  // ---- Arrival order does not matter ----

  /** Receives once from each sender of the list, with enough patience; stops at the first that finds nothing. */
  function RecvAll<T>(senders: seq<Path>, buffer: Buffer<T>, wire: Wire<T>): (seq<T>, Buffer<T>, Wire<T>) {
    if senders == [] then ([], buffer, wire)
    else
      var r := RecvExpected(senders[0], buffer, wire, |wire|, false);
      if r.result.Nothing? then ([], r.buffer, r.wire)
      else
        var (rest, b, w) := RecvAll(senders[1..], r.buffer, r.wire);
        ([r.result.value] + rest, b, w)
  }

  /**
   Confluence: two receivers whose pending queues agree sender by sender, however the messages of
   different senders are interleaved on the wires and split between buffer and wire, deliver the same
   values for the same list of expected senders and end with the same pending queues.
   */
  lemma {:induction false} ArrivalOrderConfluence<T>(
      senders: seq<Path>, b1: Buffer<T>, w1: Wire<T>, b2: Buffer<T>, w2: Wire<T>)
    requires forall s :: Pending(b1, w1, s) == Pending(b2, w2, s)
    ensures RecvAll(senders, b1, w1).0 == RecvAll(senders, b2, w2).0
    ensures forall s ::
              Pending(RecvAll(senders, b1, w1).1, RecvAll(senders, b1, w1).2, s) ==
              Pending(RecvAll(senders, b2, w2).1, RecvAll(senders, b2, w2).2, s)
  {
    if senders != [] {
      var s := senders[0];
      var r1 := RecvExpected(s, b1, w1, |w1|, false);
      var r2 := RecvExpected(s, b2, w2, |w2|, false);
      RecvExpectedRefines(s, b1, w1, |w1|, false);
      RecvExpectedRefines(s, b2, w2, |w2|, false);
      PatientRecv(s, b1, w1, |w1|, false);
      PatientRecv(s, b2, w2, |w2|, false);
      assert Pending(b1, w1, s) == Pending(b2, w2, s);
      forall u
        ensures Pending(r1.buffer, r1.wire, u) == Pending(r2.buffer, r2.wire, u)
      {
        assert Pending(b1, w1, u) == Pending(b2, w2, u);
        if u == s && r1.result.Got? {
          assert Pending(r1.buffer, r1.wire, s) == Pending(b1, w1, s)[1..];
          assert Pending(r2.buffer, r2.wire, s) == Pending(b2, w2, s)[1..];
        }
      }
      if r1.result.Got? {
        assert r1.result.value == Pending(b1, w1, s)[0] == r2.result.value;
        ArrivalOrderConfluence(senders[1..], r1.buffer, r1.wire, r2.buffer, r2.wire);
      }
    }
  }
}
