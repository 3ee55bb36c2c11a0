/**
 The set of ipc receivers (`IpcReceiverSet`, src/ipc_channel/mod.rs:495-1046). Record uses the real set.
 Replay keeps the receivers to itself, numbers them as the real set would, and reads from them what the log
 says. After a desynchronisation it moves them into the real set.

 The real set numbers its receivers 0, 1, 2, ... The receivers belong to the set object: they were moved
 into it. Which receivers the real set looks at, and how long replay waits, is up to the environment.
 */
module IpcReceiverSets {
  import opened Channels
  import opened EventLog
  import opened Identities
  import opened IpcBatches
  import opened RecordLog
  import opened ReplayEngine

  /** `to_opaque`: a receiver on its way into a set. Its buffer stays behind. */
  function ToOpaque<T>(wire: Wire<T>, hungUp: bool, metadata: Metadata): Slot<T> {
    Slot(wire, hungUp, metadata, false)
  }

  /**
   The receiver loses no message on its way into a set exactly if nothing has been buffered, as when nobody has
   received on it.
   */
  lemma ToOpaqueKeepsAll<T>(buffer: Buffer<T>, wire: Wire<T>, hungUp: bool, metadata: Metadata)
    ensures SamePending(map[], ToOpaque(wire, hungUp, metadata).wire, buffer, wire) <==> Drained(buffer)
  {
    if !Drained(buffer) {
      var s :| s in buffer && buffer[s] != [];
      assert |Pending(buffer, wire, s)| == |buffer[s]| + |From(wire, s)|;
      assert |Pending(map[], wire, s)| == |From(wire, s)|;
    } else {
      assert forall s :: Buffered(buffer, s) == [];
    }
  }

  /** Result of `rr_select`: an error comes with the entries that the replay already has. */
  datatype RrSelected<T> =
    | Entries(entries: seq<Selection<T>>)
    | Interrupted(error: DesyncError, partial: seq<Selection<T>>)
    | RrPanicked

  /** The log entry of a channel created by the thread. */
  function CreationEntry(thread: Path, number: nat): RecordEntry {
    RecordEntry(ChannelCreation, Ipc, DetChannelId(thread, number))
  }

  /** The next entries of the log are the creations of this many channels. */
  ghost predicate DummiesLogged(log: seq<RecordEntry>, next: nat, thread: Path, number: nat, count: nat) {
    count == 0
    || (&& DummiesLogged(log, next, thread, number, count - 1)
        && next + count <= |log| && log[next + count - 1] == CreationEntry(thread, number + count))
  }

  lemma {:induction false} FewerDummies(log: seq<RecordEntry>, next: nat, thread: Path, number: nat, count: nat,
      all: nat)
    requires count <= all && DummiesLogged(log, next, thread, number, all)
    ensures DummiesLogged(log, next, thread, number, count)
    decreases all
  {
    if count < all {
      FewerDummies(log, next, thread, number, count, all - 1);
    }
  }

  lemma OneMoreDummy(log: seq<RecordEntry>, next: nat, thread: Path, number: nat, count: nat, all: nat)
    requires DummiesLogged(log, next, thread, number, count) && count < all
    ensures DummiesLogged(log, next, thread, number, count + 1) <==>
              next + count < |log| && log[next + count] == CreationEntry(thread, number + count + 1)
    ensures DummiesLogged(log, next, thread, number, all) ==> DummiesLogged(log, next, thread, number, count + 1)
  {
    if DummiesLogged(log, next, thread, number, all) {
      FewerDummies(log, next, thread, number, count + 1, all);
    }
  }

  function ClosedCount<T>(slots: seq<Slot<T>>): nat {
    if slots == [] then 0 else ClosedCount(slots[..|slots| - 1]) + if slots[|slots| - 1].closed then 1 else 0
  }

  lemma {:induction false} ClosedCounts<T>(slots: seq<Slot<T>>)
    ensures ClosedCount(slots) > 0 <==> exists i: nat :: i < |slots| && slots[i].closed
  {
    if slots != [] {
      var n := |slots| - 1;
      ClosedCounts(slots[..n]);
      if i: nat :| i < |slots[..n]| && slots[..n][i].closed {
        assert slots[i].closed;
      }
      if i: nat :| i < |slots| && slots[i].closed {
        assert i == n || slots[..n][i].closed;
      }
    }
  }

  /**
   A set whose thread slept at the end of its log, and was woken by a desynchronisation, can move its receivers
   exactly if none of them has closed: there is no entry left for the creation of a dummy.
   */
  lemma WokenSetMovesIfAllOpen<T>(log: seq<RecordEntry>, thread: Path, number: nat, slots: seq<Slot<T>>)
    ensures DummiesLogged(log, |log|, thread, number, ClosedCount(slots)) <==> forall i: nat | i < |slots| :: !slots[i].closed
  {
    ClosedCounts(slots);
  }

  /** A receiver that stays silent: its channel has a sender that is kept and never used. */
  function DummySlot<T>(thread: Path, number: nat): Slot<T> {
    Slot([], false, Metadata(Ipc, DetChannelId(thread, number)), false)
  }

  predicate IsDummy<T>(slot: Slot<T>) {
    slot.wire == [] && !slot.hungUp && !slot.closed
  }

  /** `moved` are the receivers `slots` in their old places, with a dummy for each closed one. */
  ghost predicate MovedTo<T>(slots: seq<Slot<T>>, moved: seq<Slot<T>>) {
    && |moved| == |slots|
    && forall i: nat | i < |slots| :: if slots[i].closed then IsDummy(moved[i]) else moved[i] == slots[i]
  }

  /** A closed channel has been read to its end. */
  ghost predicate ClosedAreEmpty<T>(slots: seq<Slot<T>>) {
    forall i: nat | i < |slots| && slots[i].closed :: slots[i].wire == [] && slots[i].hungUp
  }

  ghost predicate NothingBuffered<T>(buffers: Buffers<T>) {
    forall i :: Drained(At(buffers, i))
  }

  lemma MovedAccounted<T>(sent: seq<Wire<T>>, left: seq<Selection<T>>, slots: seq<Slot<T>>, moved: seq<Slot<T>>,
      buffers: Buffers<T>)
    requires MovedTo(slots, moved) && ClosedAreEmpty(slots)
    ensures AllAccounted(sent, left, moved, buffers) <==> AllAccounted(sent, left, slots, buffers)
  {
    forall i: nat | i < |moved|
      ensures moved[i].wire == slots[i].wire
    {
    }
  }

  /** What the move into the real set keeps. */
  lemma MovingKeeps<T>(sent: seq<Wire<T>>, left: seq<Selection<T>>, seen: seq<Selection<T>>, slots: seq<Slot<T>>,
      moved: seq<Slot<T>>, buffers: Buffers<T>, dummies: seq<nat>)
    requires MovedTo(slots, moved) && DummiesFor(slots, dummies) && ClosedAreEmpty(slots)
    ensures ClosedAreEmpty(moved) && forall i | i in dummies :: i < |moved| && IsDummy(moved[i])
    ensures AllAccounted(sent, left, moved, buffers) <==> AllAccounted(sent, left, slots, buffers)
    ensures ClosedOnce(seen, slots, []) ==> ClosedOnce(seen, moved, dummies)
  {
    MovedAccounted(sent, left, slots, moved, buffers);
    if ClosedOnce(seen, slots, []) {
      forall i: nat
        ensures Closings(seen, i) <= if i in dummies then 1 else ClosedFlag(moved, i)
      {
        assert Closings(seen, i) <= ClosedFlag(slots, i);
      }
    }
  }

  // ---- Draining the buffers ----

  /** One queue as results of a select. */
  function QueueEntries<T>(i: nat, s: Path, queue: seq<T>): seq<Selection<T>> {
    if queue == [] then [] else [Message(i, DetMessage(s, queue[0]))] + QueueEntries(i, s, queue[1..])
  }

  lemma {:induction false} QueueGiven<T>(i: nat, s: Path, queue: seq<T>, j: nat, u: Path)
    ensures Given(QueueEntries(i, s, queue), j, u) == if i == j && s == u then queue else []
    ensures Closings(QueueEntries(i, s, queue), j) == 0
    ensures QueueEntries(i, s, queue) == [] <==> queue == []
  {
    if queue != [] {
      QueueGiven(i, s, queue[1..], j, u);
    }
  }

  /** The entries are the whole buffers, first-in, first-out per index and sender. */
  ghost predicate AreBuffered<T>(entries: seq<Selection<T>>, buffers: Buffers<T>) {
    && (forall i, s :: Given(entries, i, s) == Buffered(At(buffers, i), s))
    && (forall i :: Closings(entries, i) == 0)
  }

  lemma DrainAccounted<T>(sent: seq<Wire<T>>, left: seq<Selection<T>>, slots: seq<Slot<T>>, buffers: Buffers<T>,
      entries: seq<Selection<T>>)
    requires AreBuffered(entries, buffers)
    ensures AllAccounted(sent, left + entries, slots, map[]) <==> AllAccounted(sent, left, slots, buffers)
  {
    forall i: nat | i < |slots| && |sent| == |slots|
      ensures AccountedAt(sent[i], left + entries, i, map[], slots[i].wire) <==>
              AccountedAt(sent[i], left, i, At(buffers, i), slots[i].wire)
    {
      forall s
        ensures Given(left + entries, i, s) + Pending(map[], slots[i].wire, s) ==
                Given(left, i, s) + Pending(At(buffers, i), slots[i].wire, s)
      {
        GivenAppend(left, entries, i, s);
        DrainedQueue(Given(left, i, s), Buffered(At(buffers, i), s), From(slots[i].wire, s));
      }
    }
  }

  lemma DrainedQueue<T>(g: seq<T>, q: seq<T>, w: seq<T>)
    ensures g + (q + w) == (g + q) + ([] + w)
  {
  }

  /** A result is there if a message or a closing is. */
  lemma EmptyEntries<T>(entries: seq<Selection<T>>, buffers: Buffers<T>)
    requires AreBuffered(entries, buffers)
    ensures entries == [] <==> NothingBuffered(buffers)
  {
    if entries == [] {
      forall i, s | s in At(buffers, i)
        ensures At(buffers, i)[s] == []
      {
        assert Given(entries, i, s) == [];
      }
    } else if entries[0].Message? {
      var i, s := entries[0].at, entries[0].message.sender;
      assert Given(entries, i, s) != [];
      assert !Drained(At(buffers, i));
    } else {
      assert Closings(entries, entries[0].at) > 0;
    }
  }

  /** The entries hold the queues of index `i`, but for the senders that are left. */
  ghost predicate HoldsIndex<T>(entries: seq<Selection<T>>, i: nat, b: Buffer<T>, senders: set<Path>) {
    && (forall j, s :: Given(entries, j, s) == if j == i && s !in senders then Buffered(b, s) else [])
    && (forall j :: Closings(entries, j) == 0)
  }

  lemma NextSender<T>(entries: seq<Selection<T>>, i: nat, b: Buffer<T>, senders: set<Path>, s: Path)
    requires HoldsIndex(entries, i, b, senders) && s in senders && s in b
    ensures HoldsIndex(entries + QueueEntries(i, s, b[s]), i, b, senders - {s})
  {
    var more := QueueEntries(i, s, b[s]);
    forall j: nat, u: Path
      ensures Given(entries + more, j, u) == if j == i && u !in senders - {s} then Buffered(b, u) else []
    {
      GivenAppend(entries, more, j, u);
      QueueGiven(i, s, b[s], j, u);
    }
    forall j: nat
      ensures Closings(entries + more, j) == 0
    {
      ClosingsAppend(entries, more, j);
      QueueGiven(i, s, b[s], j, s);
    }
  }

  /** The messages of one index. */
  method DrainIndex<T>(i: nat, b: Buffer<T>) returns (entries: seq<Selection<T>>)
    ensures HoldsIndex(entries, i, b, {})
  {
    entries := [];
    var senders := b.Keys;
    while senders != {}
      invariant senders <= b.Keys
      invariant HoldsIndex(entries, i, b, senders)
      decreases |senders|
    {
      var s :| s in senders;
      NextSender(entries, i, b, senders, s);
      entries, senders := entries + QueueEntries(i, s, b[s]), senders - {s};
    }
  }

  /** The entries hold the buffers, but for the indices that are left. */
  ghost predicate HoldsAll<T>(entries: seq<Selection<T>>, buffers: Buffers<T>, indices: set<nat>) {
    && (forall i, s :: Given(entries, i, s) == if i in indices then [] else Buffered(At(buffers, i), s))
    && (forall j :: Closings(entries, j) == 0)
  }

  lemma NextIndex<T>(entries: seq<Selection<T>>, buffers: Buffers<T>, indices: set<nat>, i: nat,
      more: seq<Selection<T>>)
    requires HoldsAll(entries, buffers, indices) && i in indices && HoldsIndex(more, i, At(buffers, i), {})
    ensures HoldsAll(entries + more, buffers, indices - {i})
  {
    forall j: nat, s: Path
      ensures Given(entries + more, j, s) == if j in indices - {i} then [] else Buffered(At(buffers, j), s)
    {
      GivenAppend(entries, more, j, s);
    }
    forall j: nat
      ensures Closings(entries + more, j) == 0
    {
      ClosingsAppend(entries, more, j);
    }
  }

  /** All buffered messages, as if a select had returned them. The order of indices and senders is arbitrary. */
  method BufferedEntries<T>(buffers: Buffers<T>) returns (entries: seq<Selection<T>>)
    ensures AreBuffered(entries, buffers)
    ensures entries == [] <==> NothingBuffered(buffers)
  {
    entries := [];
    var indices := buffers.Keys;
    while indices != {}
      invariant indices <= buffers.Keys
      invariant HoldsAll(entries, buffers, indices)
      decreases |indices|
    {
      var i :| i in indices;
      var more := DrainIndex(i, buffers[i]);
      NextIndex(entries, buffers, indices, i, more);
      entries, indices := entries + more, indices - {i};
    }
    EmptyEntries(entries, buffers);
  }

  /** Nothing ever came with an index that has not been given out. */
  ghost predicate NothingBeyond<T>(entries: seq<Selection<T>>, n: nat) {
    forall i, s | i >= n :: Given(entries, i, s) == []
  }

  lemma NothingBeyondAppend<T>(a: seq<Selection<T>>, b: seq<Selection<T>>, n: nat)
    requires NothingBeyond(a, n) && NothingBeyond(b, n)
    ensures NothingBeyond(a + b, n)
  {
    forall i: nat, s: Path | i >= n
      ensures Given(a + b, i, s) == []
    {
      GivenAppend(a, b, i, s);
    }
  }

  ghost predicate InRange<T>(entries: seq<Selection<T>>, n: nat) {
    forall e | e in entries :: e.at < n
  }

  lemma {:induction false} InRangeNothingBeyond<T>(entries: seq<Selection<T>>, n: nat)
    requires InRange(entries, n)
    ensures NothingBeyond(entries, n)
  {
    if entries != [] {
      assert entries[0] in entries;
      InRangeNothingBeyond(entries[1..], n);
    }
  }

  /** `dummies` are the places of the closed receivers. */
  ghost predicate DummiesFor<T>(slots: seq<Slot<T>>, dummies: seq<nat>) {
    forall i: nat :: i in dummies <==> i < |slots| && slots[i].closed
  }

  lemma {:induction false} ClosedCountGrows<T>(slots: seq<Slot<T>>, k: nat)
    requires k <= |slots|
    ensures ClosedCount(slots[..k]) <= ClosedCount(slots)
    decreases |slots|
  {
    if k == |slots| {
      assert slots[..k] == slots;
    } else {
      var n := |slots| - 1;
      assert slots[..n][..k] == slots[..k];
      ClosedCountGrows(slots[..n], k);
    }
  }

  lemma MovedStep<T>(slots: seq<Slot<T>>, k: nat, moved: seq<Slot<T>>, dummies: seq<nat>, slot: Slot<T>)
    requires k < |slots| && MovedTo(slots[..k], moved) && DummiesFor(slots[..k], dummies)
    requires if slots[k].closed then IsDummy(slot) else slot == slots[k]
    ensures MovedTo(slots[..k + 1], moved + [slot])
    ensures DummiesFor(slots[..k + 1], if slots[k].closed then dummies + [k] else dummies)
    ensures ClosedCount(slots[..k + 1]) == ClosedCount(slots[..k]) + if slots[k].closed then 1 else 0
  {
    assert slots[..k + 1][..k] == slots[..k];
    assert slots[..k + 1] == slots[..k] + [slots[k]];
  }

  ghost predicate MovedOrSame<T>(replaying: bool, slots: seq<Slot<T>>, now: seq<Slot<T>>) {
    now == slots || (replaying && MovedTo(slots, now))
  }

  lemma SlotAdded<T>(sent: seq<Wire<T>>, left: seq<Selection<T>>, slots: seq<Slot<T>>, buffers: Buffers<T>,
      slot: Slot<T>)
    requires (forall i | i in buffers :: i < |slots|) && NothingBeyond(left, |slots|)
    ensures AllAccounted(sent, left, slots, buffers) ==>
              AllAccounted(sent + [slot.wire], left, slots + [slot], buffers)
  {
    if AllAccounted(sent, left, slots, buffers) {
      forall i: nat | i <= |slots|
        ensures AccountedAt((sent + [slot.wire])[i], left, i, At(buffers, i), (slots + [slot])[i].wire)
      {
        if i < |slots| {
          assert AccountedAt(sent[i], left, i, At(buffers, i), slots[i].wire);
        }
      }
    }
  }

  /** What a real select leaves alone: a dummy is never read from and never closes. */
  lemma {:induction false} RealSelectKeeps<T>(slots: seq<Slot<T>>, buffers: Buffers<T>, order: seq<nat>)
    requires ClosedAreEmpty(slots)
    ensures var p := RealSelect(slots, buffers, order);
            && |p.slots| == |slots| && p.buffers == buffers && p.error.None? && ClosedAreEmpty(p.slots)
            && (forall i: nat | i < |slots| && IsDummy(slots[i]) :: p.slots[i] == slots[i])
            && (forall e | e in p.entries :: e.at < |slots| && !IsDummy(slots[e.at]))
    decreases |order|
  {
    if order != [] {
      RealSelectKeeps(slots, buffers, order[..|order| - 1]);
    }
  }

  lemma EventKeepsClosedEmpty<T>(p: Progress<T>, event: IpcSelectEvent, patience: nat)
    requires ClosedAreEmpty(p.slots) && InRange(p.entries, |p.slots|)
    ensures var q := ReplayEvent(p, event, patience);
            |q.slots| == |p.slots| && ClosedAreEmpty(q.slots) && InRange(q.entries, |p.slots|)
  {
    if event.index < |p.slots| && event.MessageReceived? {
      var slot := p.slots[event.index];
      RecvExpectedRefines(event.sender, At(p.buffers, event.index), slot.wire, patience, slot.hungUp);
      RecvShortens(event.sender, At(p.buffers, event.index), slot.wire, patience, slot.hungUp);
    }
  }

  lemma {:induction false} ReplayKeepsClosedEmpty<T>(slots: seq<Slot<T>>, buffers: Buffers<T>,
      events: seq<IpcSelectEvent>, patience: nat -> nat)
    requires ClosedAreEmpty(slots)
    ensures var p := ReplayEvents(slots, buffers, events, patience);
            ClosedAreEmpty(p.slots) && |p.slots| == |slots| && InRange(p.entries, |slots|)
    decreases |events|
  {
    if events != [] {
      var n := |events| - 1;
      ReplayKeepsClosedEmpty(slots, buffers, events[..n], patience);
      EventKeepsClosedEmpty(ReplayEvents(slots, buffers, events[..n], patience), events[n], patience(n));
    }
  }

  /** The events of a log from some entry on. */
  function EventsFrom(log: seq<RecordEntry>, n: nat): (events: seq<TivoEvent>)
    requires n <= |log|
    ensures |events| == |log| - n && forall k | 0 <= k < |events| :: events[k] == log[n + k].event
  {
    seq(|log| - n, k requires 0 <= k < |log| - n => log[n + k].event)
  }

  lemma EventsAfter(log: seq<RecordEntry>, n: nat)
    requires n < |log|
    ensures EventsFrom(log, n)[0] == log[n].event && EventsFrom(log, n)[1..] == EventsFrom(log, n + 1)
  {
  }

  /** Reading on in the log leaves fewer closings. */
  lemma {:induction false} ReadingOnCloses<T>(slots: seq<Slot<T>>, log: seq<RecordEntry>, n: nat, next: nat)
    requires n <= next <= |log| && ClosesEachOnce(slots, EventsFrom(log, n))
    ensures ClosesEachOnce(slots, EventsFrom(log, next))
    decreases next - n
  {
    if n < next {
      EventsAfter(log, n);
      forall i: nat
        ensures ClosedFlag(slots, i) + LogClosings(EventsFrom(log, n + 1), i) <= 1
      {
        assert ClosedFlag(slots, i) + LogClosings(EventsFrom(log, n), i) <= 1;
      }
      ReadingOnCloses(slots, log, n + 1, next);
    }
  }

  /**
   The log of a thread that recorded a run of one set, starting with no receivers: it closes each receiver at most once,
   whatever else the thread logged, unless that is batches of other sets.
   */
  lemma RecordedLogClosesOnce<T>(steps: seq<Step<T>>, log: seq<RecordEntry>, n: nat)
    requires n <= |log|
    requires forall i :: LogClosings(EventsFrom(log, n), i) <= LogClosings(RecordSteps<T>([], steps).log, i)
    ensures ClosesEachOnce<T>([], EventsFrom(log, n))
  {
    forall i: nat
      ensures ClosedFlag<T>([], i) + LogClosings(EventsFrom(log, n), i) <= 1
    {
      RunClosesOnce<T>([], steps, i);
    }
  }

  /** Each index was seen to close at most once, and then its receiver is marked or replaced. */
  ghost predicate ClosedOnce<T>(seen: seq<Selection<T>>, slots: seq<Slot<T>>, dummies: seq<nat>) {
    forall i: nat :: Closings(seen, i) <= if i in dummies then 1 else ClosedFlag(slots, i)
  }

  lemma ReplayClosesOnce<T>(seen: seq<Selection<T>>, slots: seq<Slot<T>>, buffers: Buffers<T>,
      events: seq<IpcSelectEvent>, patience: nat -> nat)
    requires ClosedOnce(seen, slots, []) && ClosesOpen(slots, events)
    ensures var p := ReplayEvents(slots, buffers, events, patience);
            ClosedOnce(if p.error.None? then seen + p.entries else seen, p.slots, [])
  {
    var p := ReplayEvents(slots, buffers, events, patience);
    forall i: nat
      ensures Closings(seen, i) <= ClosedFlag(p.slots, i)
      ensures p.error.None? ==> Closings(seen + p.entries, i) <= ClosedFlag(p.slots, i)
    {
      ReplayClosings(slots, buffers, events, patience, i);
      ClosingsAppend(seen, p.entries, i);
      assert Closings(seen, i) <= ClosedFlag(slots, i);
    }
  }

  lemma RealClosesOnce<T>(seen: seq<Selection<T>>, slots: seq<Slot<T>>, dummies: seq<nat>, order: seq<nat>)
    requires ClosedOnce(seen, slots, dummies) && ClosedAreEmpty(slots)
    requires forall i | i in dummies :: i < |slots| && IsDummy(slots[i])
    ensures var p := RealSelect(slots, map[], order);
            ClosedOnce(seen + p.entries, p.slots, dummies)
  {
    var p := RealSelect(slots, map[], order);
    RealSelectKeeps(slots, map[], order);
    forall i: nat
      ensures Closings(seen + p.entries, i) <= if i in dummies then 1 else ClosedFlag(p.slots, i)
    {
      RealClosings(slots, map[], order, i);
      ClosingsAppend(seen, p.entries, i);
      assert i in dummies ==> p.slots[i] == slots[i];
    }
  }

  /** What a replayed batch keeps, in terms of the set that replays it. */
  lemma BatchKeeps<T>(sent: seq<Wire<T>>, left: seq<Selection<T>>, seen: seq<Selection<T>>, slots: seq<Slot<T>>,
      buffers: Buffers<T>,
                      events: seq<IpcSelectEvent>, patience: nat -> nat)
    requires (forall i | i in buffers :: i < |slots|) && ClosedAreEmpty(slots) && NothingBeyond(left, |slots|)
    ensures var p := ReplayEvents(slots, buffers, events, patience);
            && |p.slots| == |slots| && (forall i | i in p.buffers :: i < |slots|) && ClosedAreEmpty(p.slots)
            && NothingBeyond(left + p.entries, |slots|)
            && (AllAccounted(sent, left, slots, buffers) ==>
                  (AllAccounted(sent, left + p.entries, p.slots, p.buffers) <==>
                   !Overtaken(slots, buffers, events, patience)))
            && (ClosedOnce(seen, slots, []) && ClosesOpen(slots, events) ==>
                  ClosedOnce(if p.error.None? then seen + p.entries else seen, p.slots, []))
  {
    var p := ReplayEvents(slots, buffers, events, patience);
    BuffersStayInRange(slots, buffers, events, patience);
    ReplayKeepsClosedEmpty(slots, buffers, events, patience);
    InRangeNothingBeyond(p.entries, |slots|);
    NothingBeyondAppend(left, p.entries, |slots|);
    if AllAccounted(sent, left, slots, buffers) {
      BatchAccounted(sent, left, slots, buffers, events, patience);
    }
    if ClosedOnce(seen, slots, []) && ClosesOpen(slots, events) {
      ReplayClosesOnce(seen, slots, buffers, events, patience);
    }
  }

  lemma ArrivalKeepsAccount<T>(sent: Wire<T>, left: seq<Selection<T>>, i: nat, b: Buffer<T>, w: Wire<T>,
      m: DetMessage<T>)
    requires AccountedAt(sent, left, i, b, w)
    ensures AccountedAt(sent + [m], left, i, b, w + [m])
  {
    forall s
      ensures From(sent + [m], s) == Given(left, i, s) + Pending(b, w + [m], s)
    {
      FromAppend(sent, [m], s);
      Arrivals(b, w, [m], s);
      assert From(sent, s) == Given(left, i, s) + Pending(b, w, s);
      Regroup(Given(left, i, s), Pending(b, w, s), From([m], s));
    }
  }

  /** A message arrives at a receiver. */
  lemma SlotArrives<T>(sent: seq<Wire<T>>, left: seq<Selection<T>>, seen: seq<Selection<T>>, slots: seq<Slot<T>>,
      buffers: Buffers<T>, dummies: seq<nat>, log: seq<TivoEvent>, i: nat, m: DetMessage<T>)
    requires i < |slots| == |sent|
    ensures var slots' := slots[i := slots[i].(wire := slots[i].wire + [m])];
            && (AllAccounted(sent, left, slots, buffers) ==> AllAccounted(sent[i := sent[i] + [m]], left, slots', buffers))
            && (ClosedOnce(seen, slots, dummies) ==> ClosedOnce(seen, slots', dummies))
            && (ClosesEachOnce(slots, log) ==> ClosesEachOnce(slots', log))
  {
    var slots' := slots[i := slots[i].(wire := slots[i].wire + [m])];
    assert forall j :: ClosedFlag(slots', j) == ClosedFlag(slots, j);
    if AllAccounted(sent, left, slots, buffers) {
      forall j: nat | j < |slots|
        ensures AccountedAt(sent[i := sent[i] + [m]][j], left, j, At(buffers, j), slots'[j].wire)
      {
        assert AccountedAt(sent[j], left, j, At(buffers, j), slots[j].wire);
        if j == i {
          ArrivalKeepsAccount(sent[i], left, i, At(buffers, i), slots[i].wire, m);
        }
      }
    }
    if ClosesEachOnce(slots, log) {
      SameFlags(slots, slots', log);
    }
  }

  lemma SameFlags<T>(slots: seq<Slot<T>>, slots': seq<Slot<T>>, log: seq<TivoEvent>)
    requires ClosesEachOnce(slots, log) && forall i :: ClosedFlag(slots', i) == ClosedFlag(slots, i)
    ensures ClosesEachOnce(slots', log)
  {
    forall i: nat
      ensures ClosedFlag(slots', i) + LogClosings(log, i) <= 1
    {
      assert ClosedFlag(slots, i) + LogClosings(log, i) <= 1;
    }
  }

  /** A channel hangs up. */
  lemma SlotHangsUp<T>(sent: seq<Wire<T>>, left: seq<Selection<T>>, seen: seq<Selection<T>>, slots: seq<Slot<T>>,
      buffers: Buffers<T>, dummies: seq<nat>, log: seq<TivoEvent>, i: nat)
    requires i < |slots| == |sent|
    ensures var slots' := slots[i := slots[i].(hungUp := true)];
            && (AllAccounted(sent, left, slots, buffers) ==> AllAccounted(sent, left, slots', buffers))
            && (ClosedOnce(seen, slots, dummies) ==> ClosedOnce(seen, slots', dummies))
            && (ClosesEachOnce(slots, log) ==> ClosesEachOnce(slots', log))
  {
    var slots' := slots[i := slots[i].(hungUp := true)];
    assert forall j :: ClosedFlag(slots', j) == ClosedFlag(slots, j);
    if AllAccounted(sent, left, slots, buffers) {
      forall j: nat | j < |slots|
        ensures AccountedAt(sent[j], left, j, At(buffers, j), slots'[j].wire)
      {
        assert AccountedAt(sent[j], left, j, At(buffers, j), slots[j].wire);
      }
    }
    if ClosesEachOnce(slots, log) {
      SameFlags(slots, slots', log);
    }
  }

  lemma KeepAgain<T>(buffers: Buffers<T>, now: Buffers<T>, i: nat, b: Buffer<T>, s: Path)
    requires now == Keep(buffers, i, At(now, i)) && s in b
    ensures now[i := b] == Keep(buffers, i, b)
  {
    assert b != map[];
  }

  // ---- The set ----

  class IpcReceiverSet<T> {
    var realSet: seq<Slot<T>>
    var index: nat
    var receivers: seq<Slot<T>>
    var buffer: Buffers<T>
    var desynced: bool
    var dummySenders: seq<nat>   // the dummies that they belong to
    var channelNumber: nat       // the thread's count of channels
    const thread: Path
    const recorder: EventRecorder
    const mode: RRMode

    ghost var sent: seq<Wire<T>>        // all that ever came, by index
    ghost var left: seq<Selection<T>>   // all that ever left the set, given to the user or dropped
    ghost var seen: seq<Selection<T>>   // what the user was given

    predicate Replaying()
      reads this
    {
      mode == ReplayMode && !desynced
    }

    /** The receivers, at the indices that the user knows them by. */
    function Slots(): seq<Slot<T>>
      reads this
    {
      if Replaying() then receivers else realSet
    }

    ghost predicate Valid()
      reads this, recorder
    {
      && recorder.Valid()
      && (if Replaying() then realSet == [] && dummySenders == [] && index == |receivers| else receivers == [])
      && (mode != ReplayMode ==> buffer == map[])
      && (forall i | i in buffer :: i < |Slots()|)
      && (forall i | i in dummySenders :: i < |realSet| && IsDummy(realSet[i]))
      && ClosedAreEmpty(Slots())
      && |sent| == |Slots()| && NothingBeyond(left, |Slots()|)
    }

    /** Nothing has been lost, duplicated or reordered within a sender since the set was made. */
    ghost predicate Accounted()
      reads this
    {
      AllAccounted(sent, left, Slots(), buffer)
    }

    /** The user has seen at most one closing of each index; a receiver that closed is closed or a dummy now. */
    ghost predicate ClosesOnce()
      reads this
    {
      ClosedOnce(seen, Slots(), dummySenders)
    }

    /**
     As long as the set replays, the rest of the log closes open receivers only, and each of them once. Logs of record
     runs do (`RecordedLogClosesOnce`), and reading on in the log keeps it (`ReadingOnCloses`).
     */
    ghost predicate LogClosesOnce()
      reads this, recorder
    {
      recorder.Valid() && (Replaying() ==> ClosesEachOnce(receivers, EventsFrom(recorder.log, recorder.next)))
    }

    /** The next batch of the log has a closing where a message comes and overtakes others. */
    ghost predicate NextOvertaken(programDesynced: bool, patience: nat -> nat)
      reads this, recorder
    {
      && Replaying() && !programDesynced && recorder.next < |recorder.log|
      && recorder.log[recorder.next].event.IpcSelectBatch?
      && Overtaken(receivers, buffer, recorder.log[recorder.next].event.events, patience)
    }

    constructor (thread: Path, channelNumber: nat, recorder: EventRecorder, mode: RRMode)
      requires recorder.Valid()
      ensures Valid() && Accounted() && ClosesOnce()
      ensures LogClosesOnce() <==> mode != ReplayMode || ClosesEachOnce<T>([], EventsFrom(recorder.log, recorder.next))
      ensures this.recorder == recorder && this.mode == mode && !desynced && Slots() == []
    {
      this.thread, this.channelNumber, this.recorder, this.mode := thread, channelNumber, recorder, mode;
      realSet, index, receivers, buffer, desynced, dummySenders := [], 0, [], map[], false, [];
      sent, left, seen := [], [], [];
    }

    /** A message arrives on the channel of receiver `i`. Nobody sends on a dummy. */
    method Arrive(i: nat, m: DetMessage<T>)
      requires Valid() && i < |Slots()| && !Slots()[i].hungUp && i !in dummySenders
      modifies `realSet, `receivers, `sent
      ensures Valid() && (old(Accounted()) ==> Accounted()) && (old(ClosesOnce()) ==> ClosesOnce())
      ensures old(LogClosesOnce()) ==> LogClosesOnce()
      ensures Slots() == old(Slots())[i := old(Slots()[i]).(wire := old(Slots()[i].wire) + [m])]
      ensures sent == old(sent)[i := old(sent)[i] + [m]]
    {
      SlotArrives(sent, left, seen, Slots(), buffer, dummySenders, EventsFrom(recorder.log, recorder.next), i, m);
      var slots := Slots()[i := Slots()[i].(wire := Slots()[i].wire + [m])];
      if Replaying() {
        receivers := slots;
      } else {
        realSet := slots;
      }
      sent := sent[i := sent[i] + [m]];
    }

    /** The last sender of a channel goes away. That of a dummy never does: the set holds it. */
    method HangUp(i: nat)
      requires Valid() && i < |Slots()| && i !in dummySenders
      modifies `realSet, `receivers
      ensures Valid() && (old(Accounted()) ==> Accounted()) && (old(ClosesOnce()) ==> ClosesOnce())
      ensures old(LogClosesOnce()) ==> LogClosesOnce()
      ensures Slots() == old(Slots())[i := old(Slots()[i]).(hungUp := true)]
    {
      SlotHangsUp(sent, left, seen, Slots(), buffer, dummySenders, EventsFrom(recorder.log, recorder.next), i);
      var slots := Slots()[i := Slots()[i].(hungUp := true)];
      if Replaying() {
        receivers := slots;
      } else {
        realSet := slots;
      }
    }

    // ---- Replay ----

    /** `do_replay_recv_for_entry`. */
    method DoReplayRecvForEntry(i: nat, s: Path, patience: nat)
      returns (error: Maybe<DesyncError>, entry: Maybe<Selection<T>>)
      requires i < |receivers|
      modifies `receivers, `buffer
      ensures var slot := old(receivers)[i];
              var after := RecvExpected(s, At(old(buffer), i), slot.wire, patience, slot.hungUp);
              && buffer == Keep(old(buffer), i, after.buffer)
              && receivers == old(receivers)[i := slot.(wire := after.wire,
                                                       closed := slot.closed || after.result == Nothing(HungUp))]
              && (error, entry) == match after.result
                                   case Got(v) => (None, Some(Message(i, DetMessage(s, v))))
                                   case Nothing(HungUp) => (Some(ChannelClosedUnexpected(i)), Some(Closing(i)))
                                   case Nothing(TimedOut) => (Some(TimedOutWaiting), None)
    {
      if s in At(buffer, i) && At(buffer, i)[s] != [] {
        var queue := At(buffer, i)[s];
        buffer := buffer[i := At(buffer, i)[s := queue[1..]]];
        return None, Some(Message(i, DetMessage(s, queue[0])));
      }
      ghost var slot, b0 := receivers[i], At(buffer, i);
      var more := patience;
      while true
        invariant i < |receivers| == |old(receivers)|
        invariant receivers == old(receivers)[i := slot.(wire := receivers[i].wire)]
        invariant buffer == Keep(old(buffer), i, At(buffer, i))
        invariant Scan(s, At(buffer, i), receivers[i].wire, more, slot.hungUp) ==
                  RecvExpected(s, b0, slot.wire, patience, slot.hungUp)
        decreases |receivers[i].wire|
      {
        if receivers[i].wire == [] || more == 0 {
          if ReadFailure(receivers[i].wire, more, receivers[i].hungUp).TimedOut? {
            return Some(TimedOutWaiting), None;
          }
          receivers := receivers[i := receivers[i].(closed := true)];
          return Some(ChannelClosedUnexpected(i)), Some(Closing(i));
        }
        var m := receivers[i].wire[0];
        receivers, more := receivers[i := receivers[i].(wire := receivers[i].wire[1..])], more - 1;
        if m.sender == s {
          return None, Some(Message(i, m));
        }
        var b := Put(At(buffer, i), m.sender, m.value);
        KeepAgain(old(buffer), buffer, i, b, m.sender);
        buffer := buffer[i := b];
      }
    }

    /** The outcome of one event of a batch, and the state it leaves. */
    ghost predicate IsStep(error: Maybe<DesyncError>, entry: Maybe<Selection<T>>, q: Progress<T>)
      reads this
    {
      && error == q.error && q.entries == (if entry.Some? then [entry.value] else [])
      && receivers == q.slots && buffer == q.buffers
    }

    /** `replay_select_event`. */
    method ReplaySelectEvent(event: IpcSelectEvent, patience: nat)
      returns (error: Maybe<DesyncError>, entry: Maybe<Selection<T>>)
      modifies `receivers, `buffer
      ensures IsStep(error, entry, ReplayEvent(Progress(None, [], old(receivers), old(buffer)), event, patience))
      ensures Answer(old(receivers), old(buffer), event, patience, error, entry)
    {
      EventAnswers(Progress(None, [], receivers, buffer), event, patience);
      var i := event.index;
      if i >= |receivers| {
        return Some(MissingReceiver(i)), None;
      }
      match event {
        case MessageReceived(_, s) =>
          error, entry := DoReplayRecvForEntry(i, s, patience);
        case ChannelClosed(_) =>
          var slot := receivers[i];
          if slot.wire != [] && patience > 0 {
            receivers := receivers[i := slot.(wire := slot.wire[1..])];
            return Some(ChannelClosedExpected), Some(Message(i, slot.wire[0]));
          }
          if ReadFailure(slot.wire, patience, slot.hungUp).TimedOut? {
            return Some(TimedOutWaiting), None;
          }
          receivers := receivers[i := slot.(closed := true)];
          return None, Some(Closing(i));
      }
    }

    /** The loop of `rr_select` over a logged batch. The user sees its entries if it ends without an error. */
    method ReplayBatch(events: seq<IpcSelectEvent>, patience: nat -> nat)
      returns (error: Maybe<DesyncError>, entries: seq<Selection<T>>)
      requires Valid() && Replaying()
      modifies `receivers, `buffer, `left, `seen
      ensures Valid()
      ensures Progress(error, entries, receivers, buffer) == ReplayEvents(old(receivers), old(buffer), events, patience)
      ensures AnswersBatch(old(receivers), old(buffer), events, patience, error, entries)
      ensures left == old(left) + entries && seen == if error.None? then old(seen) + entries else old(seen)
      ensures old(Accounted()) ==> (Accounted() <==> !Overtaken(old(receivers), old(buffer), events, patience))
      ensures old(ClosesOnce()) && ClosesOpen(old(receivers), events) ==> ClosesOnce()
    {
      BatchKeeps(sent, left, seen, receivers, buffer, events, patience);
      error, entries := ReplayLoop(events, patience);
      BatchIsAnswered(old(receivers), old(buffer), events, patience);
      left, seen := left + entries, if error.None? then seen + entries else seen;
    }

    static lemma BatchIsAnswered(slots: seq<Slot<T>>, buffers: Buffers<T>, events: seq<IpcSelectEvent>,
        patience: nat -> nat)
      ensures var p := ReplayEvents(slots, buffers, events, patience);
              AnswersBatch(slots, buffers, events, patience, p.error, p.entries)
    {
      var n := BatchAnswers(slots, buffers, events, patience);
      var p := ReplayEvents(slots, buffers, events, patience);
      if p.error.None? {
        assert p.entries[..n] == p.entries && events[..n] == events;
      } else {
        assert FailsAt(slots, buffers, events, patience, p.error, p.entries, n);
      }
    }

    method ReplayLoop(events: seq<IpcSelectEvent>, patience: nat -> nat)
      returns (error: Maybe<DesyncError>, entries: seq<Selection<T>>)
      modifies `receivers, `buffer
      ensures Progress(error, entries, receivers, buffer) == ReplayEvents(old(receivers), old(buffer), events, patience)
    {
      error, entries := None, [];
      var k := 0;
      while k < |events|
        invariant 0 <= k <= |events| && error.None?
        invariant Progress(None, entries, receivers, buffer) ==
                  ReplayEvents(old(receivers), old(buffer), events[..k], patience)
      {
        ghost var p := Progress(None, entries, receivers, buffer);
        assert events[..k + 1][..k] == events[..k];
        EventAddsEntries(p, events[k], patience(k));
        var entry;
        error, entry := ReplaySelectEvent(events[k], patience(k));
        entries := entries + if entry.Some? then [entry.value] else [];
        k := k + 1;
        if error.Some? {
          ErrorEndsBatch(old(receivers), old(buffer), events, patience, k);
          return;
        }
      }
      assert events[..k] == events;
    }

    /**
     The entries answer the events of a batch: all of them, or those before the one at which the replay failed, as that
     one failed, and then there is at most one entry more.
     */
    static ghost predicate AnswersBatch(slots: seq<Slot<T>>, buffers: Buffers<T>, events: seq<IpcSelectEvent>,
        patience: nat -> nat, error: Maybe<DesyncError>, entries: seq<Selection<T>>)
    {
      if error.None? then EventsOf(entries) == events
      else
        exists n: nat :: n < |events| && FailsAt(slots, buffers, events, patience, error, entries, n)
    }

    static ghost predicate FailsAt(slots: seq<Slot<T>>, buffers: Buffers<T>, events: seq<IpcSelectEvent>,
        patience: nat -> nat, error: Maybe<DesyncError>, entries: seq<Selection<T>>, n: nat)
      requires n < |events|
    {
      && n <= |entries| <= n + 1 && EventsOf(entries[..n]) == events[..n]
      && var before := ReplayEvents(slots, buffers, events[..n], patience);
      && before.error.None?
      && Answer(before.slots, before.buffers, events[n], patience(n), error, EntryOf(entries[n..]))
    }

    /** What replay makes of a select. Without a batch to replay nothing happens to the receivers. */
    ghost function Replayed(programDesynced: bool, patience: nat -> nat): Progress<T>
      reads this, recorder
      requires recorder.Valid()
    {
      var stopped := Progress(Some(Desynchronized), [], receivers, buffer);
      if programDesynced then stopped
      else if recorder.next == |recorder.log| then stopped.(error := Some(DesynchronizedWakeup))
      else match recorder.log[recorder.next].event
        case IpcSelectBatch(events) => ReplayEvents(receivers, buffer, events, patience)
        case event => stopped.(error := Some(EventMismatch(event)))
    }

    /**
     What `rr_select` makes of a select: what the log says, what the real set reports, or an error with the
     entries that the replay already has.
     */
    ghost function FirstTry(programDesynced: bool, order: seq<nat>, patience: nat -> nat): Progress<T>
      reads this, recorder
      requires recorder.Valid()
    {
      if Replaying() then Replayed(programDesynced, patience)
      else if programDesynced || mode == ReplayMode then Progress(Some(Desynchronized), [], realSet, buffer)
      else RealSelect(realSet, map[], order)
    }

    /** The log entries that replay is left with after a select. */
    ghost function NextAfter(programDesynced: bool): nat
      reads this, recorder
    {
      recorder.next + if Replaying() && !programDesynced && recorder.next < |recorder.log| then 1 else 0
    }

    /** `rr_select`. A record run panics if its log has been flushed. */
    method RrSelect(programDesynced: bool, order: seq<nat>, patience: nat -> nat)
      returns (r: RrSelected<T>, ghost p: Progress<T>)
      requires Valid()
      modifies `realSet, `receivers, `buffer, `left, `seen, recorder
      ensures Valid()
      ensures p == old(FirstTry(programDesynced, order, patience)) && Slots() == p.slots && buffer == p.buffers
      ensures !programDesynced && mode != ReplayMode ==> p.error.None?
      ensures r == if mode == RecordMode && !programDesynced && old(recorder.flushed) then RrPanicked
                   else if p.error.Some? then Interrupted(p.error.value, p.entries)
                   else Entries(p.entries)
      ensures programDesynced || old(mode == ReplayMode && desynced) ==> r == Interrupted(Desynchronized, [])
      ensures !programDesynced && old(Replaying()) ==> old(ReplayResult(r, patience))
      ensures !programDesynced && mode != ReplayMode ==> p == old(RealSelect(realSet, map[], order))
      ensures left == old(left) + p.entries
      ensures seen == if p.error.None? then old(seen) + p.entries else old(seen)
      ensures old(Accounted()) ==> (Accounted() <==> !old(NextOvertaken(programDesynced, patience)))
      ensures old(ClosesOnce()) && (old(Replaying()) ==> old(LogClosesOpen())) ==> ClosesOnce()
      ensures old(LogClosesOnce()) && p.error.None? ==> LogClosesOnce()
      ensures recorder.next == old(NextAfter(programDesynced))
      ensures recorder.written == old(recorder.written) +
                if mode == RecordMode && !programDesynced && r.Entries?
                then [RecordEntry(IpcSelectBatch(EventsOf(r.entries)), IpcSelect, FAKE_CHANNEL)] else []
    {
      p := FirstTry(programDesynced, order, patience);
      if programDesynced {
        assert old(left) + [] == old(left);
        return Interrupted(Desynchronized, []), p;
      }
      match mode {
        case RecordMode =>
          var entries := DoSelect(order);
          var c := recorder.WriteEventToRecord(IpcSelectBatch(EventsOf(entries)), Metadata(IpcSelect, FAKE_CHANNEL));
          r := if c.Bad? then RrPanicked else Entries(entries);
        case NoRR =>
          var entries := DoSelect(order);
          r := Entries(entries);
        case ReplayMode =>
          if desynced {
            assert old(left) + [] == old(left);
            return Interrupted(Desynchronized, []), p;
          }
          r := ReplaySelect(patience);
      }
    }

    /** The replay part of `rr_select`. The metadata of the log entry is not looked at. */
    method ReplaySelect(patience: nat -> nat) returns (r: RrSelected<T>)
      requires Valid() && Replaying()
      modifies `receivers, `buffer, `left, `seen, recorder`next, recorder`eventNumber
      ensures Valid()
      ensures var p := old(Replayed(false, patience));
              && (receivers, buffer) == (p.slots, p.buffers)
              && r == (if p.error.Some? then Interrupted(p.error.value, p.entries) else Entries(p.entries))
              && left == old(left) + p.entries
              && seen == (if p.error.None? then old(seen) + p.entries else old(seen))
              && (old(Accounted()) ==> (Accounted() <==> !old(NextOvertaken(false, patience))))
      ensures old(ReplayResult(r, patience))
      ensures old(ClosesOnce()) && old(LogClosesOpen()) ==> ClosesOnce()
      ensures old(LogClosesOnce()) && r.Entries? ==> LogClosesOnce()
      ensures recorder.next == old(recorder.next) + if old(recorder.next) < |recorder.log| then 1 else 0
    {
      ghost var log := EventsFrom(recorder.log, recorder.next);
      var fetched := recorder.GetLogEntry();
      if fetched.NoEntry? || !fetched.entry.event.IpcSelectBatch? {
        NothingAdded(left);
        NothingAdded(seen);
        // without an entry the thread sleeps here until some thread desynchronises
        return Interrupted(if fetched.NoEntry? then DesynchronizedWakeup else EventMismatch(fetched.entry.event), []);
      }
      EventsAfter(recorder.log, recorder.next - 1);
      r := ReplayLogged(fetched.entry.event.events, patience, log);
    }

    static ghost predicate IsAnswered(r: RrSelected<T>, slots: seq<Slot<T>>, buffers: Buffers<T>,
        events: seq<IpcSelectEvent>, patience: nat -> nat)
    {
      match r
      case Entries(entries) => AnswersBatch(slots, buffers, events, patience, None, entries)
      case Interrupted(error, entries) => AnswersBatch(slots, buffers, events, patience, Some(error), entries)
      case RrPanicked => false
    }

    /** What a replayed select comes to. */
    ghost predicate ReplayResult(r: RrSelected<T>, patience: nat -> nat)
      reads this, recorder
    {
      recorder.Valid() &&
      if recorder.next == |recorder.log| then r == Interrupted(DesynchronizedWakeup, [])
      else match recorder.log[recorder.next].event
        case IpcSelectBatch(events) => IsAnswered(r, receivers, buffer, events, patience)
        case event => r == Interrupted(EventMismatch(event), [])
    }

    /** A batch that has been taken from the log. */
    method ReplayLogged(events: seq<IpcSelectEvent>, patience: nat -> nat, ghost log: seq<TivoEvent>)
      returns (r: RrSelected<T>)
      requires Valid() && Replaying()
      requires log != [] && log[0] == IpcSelectBatch(events) && log[1..] == EventsFrom(recorder.log, recorder.next)
      modifies `receivers, `buffer, `left, `seen
      ensures Valid()
      ensures var p := ReplayEvents(old(receivers), old(buffer), events, patience);
              && (receivers, buffer) == (p.slots, p.buffers)
              && r == (if p.error.Some? then Interrupted(p.error.value, p.entries) else Entries(p.entries))
              && left == old(left) + p.entries
              && seen == (if p.error.None? then old(seen) + p.entries else old(seen))
      ensures old(Accounted()) ==> (Accounted() <==> !Overtaken(old(receivers), old(buffer), events, patience))
      ensures IsAnswered(r, old(receivers), old(buffer), events, patience)
      ensures old(ClosesOnce()) && ClosesOpen(old(receivers), events) ==> ClosesOnce()
      ensures ClosesEachOnce(old(receivers), log) && r.Entries? ==> LogClosesOnce()
    {
      ghost var before, buffered := receivers, buffer;
      var error, entries := ReplayBatch(events, patience);
      if error.None? && ClosesEachOnce(before, log) {
        ReplayedClosesOnce(before, buffered, log, patience);
      }
      return if error.Some? then Interrupted(error.value, entries) else Entries(entries);
    }

    // ---- Going on after a desynchronisation ----

    /** A channel for a dummy, made like any other: in replay the creation must be the next entry of the log. */
    method MakeDummy() returns (dummy: Maybe<Slot<T>>)
      requires recorder.Valid() && mode == ReplayMode
      modifies `channelNumber, recorder
      ensures recorder.Valid() && channelNumber == old(channelNumber) + 1 && recorder.written == old(recorder.written)
      ensures dummy.Some? <==>
                && old(recorder.next) < |recorder.log|
                && recorder.log[old(recorder.next)] == CreationEntry(thread, channelNumber)
      ensures dummy.Some? ==> dummy.value == DummySlot(thread, channelNumber) && recorder.next == old(recorder.next) + 1
    {
      channelNumber := channelNumber + 1;
      var metadata := Metadata(Ipc, DetChannelId(thread, channelNumber));
      var fetched := recorder.GetLogEntry();
      if fetched.NoEntry? || CheckEntry(fetched.entry.event == ChannelCreation, fetched.entry, metadata).Bad? {
        return None;
      }
      return Some(DummySlot(thread, channelNumber));
    }

    /**
     `move_receivers_to_set`: the receivers go into the real set in the order in which they were added, so that
     each keeps its index; closed ones are replaced by dummies. It panics if the creation of some dummy is not
     in the log.
     */
    method MoveReceiversToSet() returns (ok: bool)
      requires Valid()
      modifies `realSet, `receivers, `desynced, `dummySenders, `channelNumber, recorder
      ensures recorder.Valid() && recorder.written == old(recorder.written)
      ensures ok <==> old(Replaying()) ==>
                DummiesLogged(recorder.log, old(recorder.next), thread, old(channelNumber), ClosedCount(old(receivers)))
      ensures ok ==> Valid() && !Replaying()
      ensures old(Replaying()) && ok ==> MovedTo(old(receivers), realSet) && DummiesFor(old(receivers), dummySenders)
      ensures !old(Replaying()) ==>
                realSet == old(realSet) && dummySenders == old(dummySenders) && recorder.next == old(recorder.next)
      ensures ok ==> (Accounted() <==> old(Accounted()))
      ensures ok && old(ClosesOnce()) ==> ClosesOnce()
    {
      if !Replaying() {
        desynced := true;
        return true;
      }
      ok := MoveOwn();
    }

    method MoveOwn() returns (ok: bool)
      requires Valid() && Replaying()
      modifies `realSet, `receivers, `desynced, `dummySenders, `channelNumber, recorder
      ensures recorder.Valid() && recorder.written == old(recorder.written)
      ensures ok <==>
                DummiesLogged(recorder.log, old(recorder.next), thread, old(channelNumber), ClosedCount(old(receivers)))
      ensures ok ==>
                && Valid() && !Replaying() && MovedTo(old(receivers), realSet) && DummiesFor(old(receivers), dummySenders)
      ensures ok ==> (AllAccounted(sent, left, realSet, buffer) <==> old(AllAccounted(sent, left, receivers, buffer)))
      ensures ok && ClosedOnce(seen, old(receivers), []) ==> ClosedOnce(seen, realSet, dummySenders)
    {
      ok := MoveAll();
      if ok {
        MovingKeeps(sent, left, seen, receivers, realSet, buffer, dummySenders);
        receivers, desynced := [], true;
      }
    }

    /** The first `k` receivers have been moved; `next` and `number` are where log and channel count were at the start. */
    ghost predicate MovedSoFar(k: nat, next: nat, number: nat)
      reads this, recorder
    {
      && k <= |receivers| && recorder.Valid()
      && var dummies := ClosedCount(receivers[..k]);
      && recorder.next == next + dummies && channelNumber == number + dummies
      && DummiesLogged(recorder.log, next, thread, number, dummies)
      && MovedTo(receivers[..k], realSet) && DummiesFor(receivers[..k], dummySenders)
    }

    /** The loop of `move_receivers_to_set`. */
    method MoveAll() returns (ok: bool)
      requires recorder.Valid() && mode == ReplayMode && realSet == [] && dummySenders == []
      modifies `realSet, `dummySenders, `channelNumber, recorder
      ensures recorder.Valid() && recorder.written == old(recorder.written)
      ensures ok <==> DummiesLogged(recorder.log, old(recorder.next), thread, old(channelNumber), ClosedCount(receivers))
      ensures ok ==> MovedTo(receivers, realSet) && DummiesFor(receivers, dummySenders)
    {
      var k := 0;
      while k < |receivers|
        invariant MovedSoFar(k, old(recorder.next), old(channelNumber))
        invariant recorder.written == old(recorder.written)
      {
        ok := MoveNext(k, old(recorder.next), old(channelNumber));
        if !ok {
          return;
        }
        k := k + 1;
      }
      assert receivers[..k] == receivers;
      return true;
    }

    method MoveNext(k: nat, ghost next: nat, ghost number: nat) returns (ok: bool)
      requires k < |receivers| && mode == ReplayMode && MovedSoFar(k, next, number)
      modifies `realSet, `dummySenders, `channelNumber, recorder
      ensures recorder.Valid() && recorder.written == old(recorder.written)
      ensures if ok then MovedSoFar(k + 1, next, number)
              else !DummiesLogged(recorder.log, next, thread, number, ClosedCount(receivers))
    {
      ghost var count := ClosedCount(receivers[..k]);
      if !receivers[k].closed {
        MovedStep(receivers, k, realSet, dummySenders, receivers[k]);
        realSet := realSet + [receivers[k]];
        return true;
      }
      ClosedCountGrows(receivers, k + 1);
      MovedStep(receivers, k, realSet, dummySenders, DummySlot(thread, channelNumber + 1));
      OneMoreDummy(recorder.log, next, thread, number, count, ClosedCount(receivers));
      var dummy := MakeDummy();
      if dummy.None? {
        return false;
      }
      dummySenders, realSet := dummySenders + [k], realSet + [dummy.value];
      return true;
    }

    /** The log has been flushed, or its next entry, if there is one, is not this addition. */
    ghost predicate RrAddPanics(metadata: Metadata)
      reads this, recorder
    {
      recorder.Valid() &&
      match mode
      case RecordMode => recorder.flushed
      case ReplayMode =>
        || recorder.next == |recorder.log|
        || recorder.log[recorder.next] != RecordEntry(IpcSelectAdd(|Slots()|), metadata.variant, metadata.id)
      case NoRR => false
    }

    /** After a desynchronisation: by mode, or for want of a dummy. */
    ghost predicate AddPanics(metadata: Metadata, programDesynced: bool, desyncMode: DesyncMode)
      reads this, recorder
    {
      if programDesynced || desynced then
        || desyncMode.PanicOnDesync?
        || (Replaying() &&
            !DummiesLogged(recorder.log, recorder.next, thread, channelNumber, ClosedCount(receivers)))
      else RrAddPanics(metadata)
    }

    /**
     `add` and `add_opaque`: the new receiver gets the next index, in record, in replay and after a
     desynchronisation alike; the earlier ones keep theirs. None is a panic. Record panics if the log has been
     flushed, replay if the next log entry is not this addition; that includes the end of the log.
     */
    method Add(receiver: Slot<T>, programDesynced: bool, desyncMode: DesyncMode) returns (at: Maybe<nat>)
      requires Valid() && !receiver.closed
      modifies this, recorder
      ensures recorder.Valid()
      ensures at.Some? ==> Valid() && (old(Accounted()) ==> Accounted()) && (old(ClosesOnce()) ==> ClosesOnce())
      ensures at.Some? && old(LogClosesOnce()) ==> LogClosesOnce()
      ensures at.Some? ==>
                && at.value == |old(Slots())|
                && |Slots()| == |old(Slots())| + 1 && Slots()[at.value] == receiver
                && MovedOrSame(old(Replaying()), old(Slots()), Slots()[..at.value])
                && (Replaying() <==> old(Replaying()) && !programDesynced)
                && sent == old(sent) + [receiver.wire] && left == old(left) && seen == old(seen)
      ensures at.None? <==> old(AddPanics(receiver.metadata, programDesynced, desyncMode))
      ensures recorder.written == old(recorder.written) +
                if mode == RecordMode && !programDesynced && !old(desynced) && at.Some?
                then [RecordEntry(IpcSelectAdd(|old(Slots())|), receiver.metadata.variant, receiver.metadata.id)] else []
    {
      if !programDesynced && !desynced {
        at := RrAdd(receiver);
      } else if desyncMode.PanicOnDesync? {
        at := None;
      } else {
        var ok := MoveReceiversToSet();
        at := None;
        if ok {
          at := AddToRealSet(receiver);
        }
      }
    }

    /** `rr_add`, before any desynchronisation. */
    method RrAdd(receiver: Slot<T>) returns (at: Maybe<nat>)
      requires Valid() && !receiver.closed && !desynced
      modifies `realSet, `receivers, `index, `sent, recorder
      ensures recorder.Valid()
      ensures at.Some? ==>
                && Valid() && (old(Accounted()) ==> Accounted()) && (old(ClosesOnce()) ==> ClosesOnce())
                && (old(LogClosesOnce()) ==> LogClosesOnce())
                && at.value == |old(Slots())| && Slots() == old(Slots()) + [receiver]
                && sent == old(sent) + [receiver.wire]
      ensures at.None? <==> old(RrAddPanics(receiver.metadata))
      ensures recorder.written == old(recorder.written) +
                if mode == RecordMode && at.Some?
                then [RecordEntry(IpcSelectAdd(|old(Slots())|), receiver.metadata.variant, receiver.metadata.id)] else []
    {
      match mode {
        case RecordMode =>
          at := AddToRealSet(receiver);
          var c := recorder.WriteEventToRecord(IpcSelectAdd(at.value), receiver.metadata);
          if c.Bad? {
            return None;
          }
        case ReplayMode =>
          at := RrAddReplay(receiver);
        case NoRR =>
          at := AddToRealSet(receiver);
      }
    }

    /** The replay part of `rr_add`. */
    method RrAddReplay(receiver: Slot<T>) returns (at: Maybe<nat>)
      requires Valid() && !receiver.closed && Replaying()
      modifies `receivers, `index, `sent, recorder`next, recorder`eventNumber
      ensures recorder.Valid()
      ensures at.Some? ==>
                && Valid() && (old(Accounted()) ==> Accounted()) && (old(ClosesOnce()) ==> ClosesOnce())
                && (old(LogClosesOnce()) ==> LogClosesOnce())
                && at.value == |old(receivers)| && receivers == old(receivers) + [receiver]
                && sent == old(sent) + [receiver.wire]
      ensures at.None? <==> old(RrAddPanics(receiver.metadata))
    {
      var fetched := recorder.GetLogEntry();
      if fetched.NoEntry? || CheckEntry(fetched.entry.event == IpcSelectAdd(index), fetched.entry, receiver.metadata).Bad? {
        return None;
      }
      if ClosesEachOnce(receivers, EventsFrom(recorder.log, recorder.next - 1)) {
        ReadingOnCloses(receivers, recorder.log, recorder.next - 1, recorder.next);
      }
      at := AddToOwn(receiver);
    }

    method AddToOwn(receiver: Slot<T>) returns (at: Maybe<nat>)
      requires Valid() && Replaying() && !receiver.closed
      modifies `receivers, `index, `sent
      ensures Valid() && (old(Accounted()) ==> Accounted()) && (old(ClosesOnce()) ==> ClosesOnce())
      ensures old(LogClosesOnce()) ==> LogClosesOnce()
      ensures at == Some(|old(receivers)|) && receivers == old(receivers) + [receiver] && sent == old(sent) + [receiver.wire]
    {
      SlotAdded(sent, left, receivers, buffer, receiver);
      at := Some(index);
      receivers, index, sent := receivers + [receiver], index + 1, sent + [receiver.wire];
    }

    method AddToRealSet(receiver: Slot<T>) returns (at: Maybe<nat>)
      requires Valid() && !Replaying() && !receiver.closed
      modifies `realSet, `sent
      ensures Valid() && (old(Accounted()) ==> Accounted()) && (old(ClosesOnce()) ==> ClosesOnce())
      ensures at == Some(|old(realSet)|) && realSet == old(realSet) + [receiver] && sent == old(sent) + [receiver.wire]
    {
      ghost var slots, sent0 := realSet, sent;
      at := Some(|realSet|);
      realSet, sent := realSet + [receiver], sent + [receiver.wire];
      SlotAdded(sent0, left, slots, buffer, receiver);
    }

    /** `do_select`: the real set reports what it finds, and never anything of a dummy. */
    method DoSelect(order: seq<nat>) returns (entries: seq<Selection<T>>)
      requires Valid() && !Replaying()
      modifies `realSet, `left, `seen
      ensures Valid()
      ensures RealSelect(old(realSet), map[], order) == Progress(None, entries, realSet, map[])
      ensures left == old(left) + entries && seen == old(seen) + entries
      ensures forall e | e in entries :: e.at !in dummySenders
      ensures NothingBuffered(buffer) ==> (Accounted() <==> old(Accounted()))
      ensures old(ClosesOnce()) ==> ClosesOnce()
    {
      RealBatchKeeps(sent, left, seen, realSet, buffer, dummySenders, order);
      var p := RealSelect(realSet, map[], order);
      entries := p.entries;
      realSet, left, seen := p.slots, left + entries, seen + entries;
    }

    /** Goes on with the real set. Buffered messages come first; the real channels are read when there are none. */
    method GoOn(order: seq<nat>) returns (entries: Maybe<seq<Selection<T>>>, ghost moved: seq<Slot<T>>)
      requires Valid()
      modifies this, recorder
      ensures recorder.Valid() && recorder.written == old(recorder.written)
      ensures entries.Some? <==> old(Replaying()) ==>
                DummiesLogged(recorder.log, old(recorder.next), thread, old(channelNumber), ClosedCount(old(receivers)))
      ensures entries.Some? ==>
                && Valid() && !Replaying() && buffer == map[]
                && sent == old(sent) && left == old(left) + entries.value && seen == old(seen) + entries.value
                && (Accounted() <==> old(Accounted())) && (old(ClosesOnce()) ==> ClosesOnce())
      ensures entries.Some? ==>
                && (if old(Replaying()) then MovedTo(old(receivers), moved) else moved == old(realSet))
                && IsSwitch(old(buffer), moved, order, entries.value, realSet)
    {
      var ok := MoveReceiversToSet();
      moved := realSet;
      if !ok {
        return None, moved;
      }
      var es := ReadOn(order);
      return Some(es), moved;
    }

    /** `get_buffered_entries`, then `do_select` if there are none. */
    method ReadOn(order: seq<nat>) returns (entries: seq<Selection<T>>)
      requires Valid() && !Replaying()
      modifies `realSet, `buffer, `left, `seen
      ensures Valid() && buffer == map[]
      ensures IsSwitch(old(buffer), old(realSet), order, entries, realSet)
      ensures left == old(left) + entries && seen == old(seen) + entries
      ensures Accounted() <==> old(Accounted())
      ensures old(ClosesOnce()) ==> ClosesOnce()
    {
      entries := Drain();
      if entries == [] {
        assert left == old(left) && seen == old(seen);
        entries := DoSelect(order);
      }
    }

    /** `get_buffered_entries`: empties the buffers. */
    method Drain() returns (entries: seq<Selection<T>>)
      requires Valid() && !Replaying()
      modifies `buffer, `left, `seen
      ensures Valid() && buffer == map[]
      ensures AreBuffered(entries, old(buffer)) && (entries == [] <==> NothingBuffered(old(buffer)))
      ensures left == old(left) + entries && seen == old(seen) + entries
      ensures AllAccounted(sent, left, realSet, map[]) <==> old(AllAccounted(sent, left, realSet, buffer))
      ensures old(ClosesOnce()) ==> ClosesOnce()
    {
      entries := BufferedEntries(buffer);
      DrainKeeps(sent, left, seen, realSet, dummySenders, buffer, entries);
      buffer, left, seen := map[], left + entries, seen + entries;
    }

    /**
     `select`. Without an error the user gets what the first try gives. After one, the entries that the first
     try has are dropped; they are the only messages that the user never sees. `moved` are the receivers as they
     come to the real set, or are there already. None is a panic; replay panics, too, if the log does not have
     the dummies for closed receivers next.
     */
    method Select(programDesynced: bool, desyncMode: DesyncMode, order: seq<nat>, patience: nat -> nat)
      returns (r: Maybe<seq<Selection<T>>>, ghost p: Progress<T>, ghost moved: seq<Slot<T>>)
      requires Valid()
      modifies this, recorder
      ensures recorder.Valid() && p == old(FirstTry(programDesynced, order, patience))
      ensures r.None? <==>
                || (mode == RecordMode && !programDesynced && old(recorder.flushed))
                || (p.error.Some? && desyncMode.PanicOnDesync?)
                || (p.error.Some? && old(Replaying()) &&
                    !DummiesLogged(recorder.log, old(NextAfter(programDesynced)), thread, old(channelNumber), ClosedCount(p.slots)))
      ensures r.Some? && p.error.None? ==>
                && r.value == p.entries && Slots() == p.slots && (Replaying() <==> old(Replaying()))
                && (old(Replaying()) ==> buffer == p.buffers)
                && left == old(left) + r.value
      ensures r.Some? && p.error.Some? ==>
                && !Replaying() && buffer == map[]
                && (if old(Replaying()) then MovedTo(p.slots, moved) else moved == p.slots)
                && IsSwitch(p.buffers, moved, order, r.value, realSet)
                && left == old(left) + p.entries + r.value
      ensures r.Some? ==> Valid() && sent == old(sent) && seen == old(seen) + r.value
      ensures r.Some? && old(Accounted()) ==> (Accounted() <==> !old(NextOvertaken(programDesynced, patience)))
      ensures r.Some? && old(ClosesOnce()) && (old(Replaying()) ==> old(LogClosesOpen())) ==> ClosesOnce()
      ensures r.Some? && old(ClosesOnce() && LogClosesOnce()) ==> ClosesOnce() && LogClosesOnce()
      ensures recorder.written == old(recorder.written) +
                if mode == RecordMode && !programDesynced && r.Some?
                then [RecordEntry(IpcSelectBatch(EventsOf(r.value)), IpcSelect, FAKE_CHANNEL)] else []
    {
      if LogClosesOnce() && Replaying() {
        NextBatchClosesOpen();
      }
      var rr;
      rr, p := RrSelect(programDesynced, order, patience);
      moved := [];
      match rr {
        case RrPanicked => r := None;
        case Entries(es) => r := Some(es);
        case Interrupted(_, _) =>
          r := None;
          if desyncMode.KeepGoing? {
            r, moved := GoOn(order);
          }
      }
    }

    /** A batch that comes next in the log closes only open receivers, and each once. */
    ghost predicate LogClosesOpen()
      reads this, recorder
    {
      recorder.next < |recorder.log| && recorder.log[recorder.next].event.IpcSelectBatch? ==>
        ClosesOpen(receivers, recorder.log[recorder.next].event.events)
    }

    lemma NextBatchClosesOpen()
      requires LogClosesOnce() && Replaying()
      ensures LogClosesOpen()
    {
      if recorder.next < |recorder.log| && recorder.log[recorder.next].event.IpcSelectBatch? {
        NextClosesOpen(receivers, EventsFrom(recorder.log, recorder.next));
      }
    }
  }

  /** A select that goes on from `moved`: the buffers if they hold anything, else the real set. */
  ghost predicate IsSwitch<T>(buffers: Buffers<T>, moved: seq<Slot<T>>, order: seq<nat>, entries: seq<Selection<T>>,
      now: seq<Slot<T>>) {
    if NothingBuffered(buffers) then
      var p := RealSelect(moved, map[], order); entries == p.entries && now == p.slots
    else
      AreBuffered(entries, buffers) && now == moved
  }

  // ---- A whole run of a set ----

  /** What a program does with its set, and what happens to the set meanwhile. */
  datatype Use<T> =
    | Adds(receiver: Slot<T>, programDesynced: bool)
    | Selects(order: seq<nat>, patience: nat -> nat, programDesynced: bool)
    | Arrives(at: nat, message: DetMessage<T>)
    | HangsUp(at: nat)
    | ReadsLog                       // the thread does something else with its log

  /** One use. False is a panic. What cannot happen, such as a message from a sender that is gone, does not. */
  method Apply<T>(s: IpcReceiverSet<T>, use: Use<T>, desyncMode: DesyncMode) returns (ok: bool)
    requires s.Valid()
    modifies s, s.recorder
    ensures ok ==> s.Valid()
    ensures ok && old(s.ClosesOnce() && s.LogClosesOnce()) ==> s.ClosesOnce() && s.LogClosesOnce()
  {
    ok := true;
    match use {
      case Adds(receiver, programDesynced) =>
        var at := s.Add(receiver.(closed := false), programDesynced, desyncMode);
        ok := at.Some?;
      case Selects(order, patience, programDesynced) =>
        var r, p, moved := s.Select(programDesynced, desyncMode, order, patience);
        ok := r.Some?;
      case Arrives(i, m) =>
        if i < |s.Slots()| && !s.Slots()[i].hungUp && i !in s.dummySenders {
          s.Arrive(i, m);
        }
      case HangsUp(i) =>
        if i < |s.Slots()| && i !in s.dummySenders {
          s.HangUp(i);
        }
      case ReadsLog =>
        if s.LogClosesOnce() && s.Replaying() && s.recorder.next < |s.recorder.log| {
          ReadingOnCloses(s.receivers, s.recorder.log, s.recorder.next, s.recorder.next + 1);
        }
        var fetched := s.recorder.GetLogEntry();
    }
  }

  /**
   Whatever a program does with a replaying set, whatever comes on its channels and wherever it desynchronises, with the
   log of a recorded run it sees each index close at most once.
   */
  method ReplayRun<T>(ghost steps: seq<Step<T>>, thread: Path, channelNumber: nat, recorder: EventRecorder,
      desyncMode: DesyncMode, uses: seq<Use<T>>)
    returns (s: IpcReceiverSet<T>, ok: bool)
    requires recorder.Valid()
    requires forall i :: LogClosings(EventsFrom(recorder.log, recorder.next), i) <= LogClosings(RecordSteps<T>([], steps).log, i)
    modifies recorder
    ensures ok ==> forall i :: Closings(s.seen, i) <= 1
  {
    RecordedLogClosesOnce(steps, recorder.log, recorder.next);
    s := new IpcReceiverSet<T>(thread, channelNumber, recorder, ReplayMode);
    ok := true;
    var k := 0;
    while k < |uses|
      invariant 0 <= k <= |uses| && ok && fresh(s) && s.recorder == recorder
      invariant s.Valid() && s.ClosesOnce() && s.LogClosesOnce()
    {
      ok := Apply(s, uses[k], desyncMode);
      if !ok {
        return;
      }
      k := k + 1;
    }
  }

  /** What a select of the real set keeps. */
  lemma RealBatchKeeps<T>(sent: seq<Wire<T>>, left: seq<Selection<T>>, seen: seq<Selection<T>>, slots: seq<Slot<T>>,
      buffers: Buffers<T>, dummies: seq<nat>, order: seq<nat>)
    requires ClosedAreEmpty(slots) && NothingBeyond(left, |slots|)
    requires forall i | i in dummies :: i < |slots| && IsDummy(slots[i])
    ensures var p := RealSelect(slots, map[], order);
            && |p.slots| == |slots| && p.buffers == map[] && p.error.None? && ClosedAreEmpty(p.slots)
            && (forall i | i in dummies :: IsDummy(p.slots[i]))
            && (forall e | e in p.entries :: e.at !in dummies)
            && NothingBeyond(left + p.entries, |slots|)
            && (NothingBuffered(buffers) ==>
                  (AllAccounted(sent, left + p.entries, p.slots, buffers) <==> AllAccounted(sent, left, slots, buffers)))
            && (ClosedOnce(seen, slots, dummies) ==> ClosedOnce(seen + p.entries, p.slots, dummies))
  {
    RealSelectKeeps(slots, map[], order);
    InRangeNothingBeyond(RealSelect(slots, map[], order).entries, |slots|);
    NothingBeyondAppend(left, RealSelect(slots, map[], order).entries, |slots|);
    if NothingBuffered(buffers) {
      RealSelectAccountedHere(sent, left, slots, buffers, order);
    }
    if ClosedOnce(seen, slots, dummies) {
      RealClosesOnce(seen, slots, dummies, order);
    }
  }

  lemma RealSelectAccountedHere<T>(sent: seq<Wire<T>>, left: seq<Selection<T>>, slots: seq<Slot<T>>,
      buffers: Buffers<T>, order: seq<nat>)
    requires NothingBuffered(buffers)
    ensures var p := RealSelect(slots, map[], order);
            AllAccounted(sent, left + p.entries, p.slots, buffers) <==> AllAccounted(sent, left, slots, buffers)
  {
    RealSelectAccounted(sent, left, slots, buffers, order);
    SameReports(slots, buffers, map[], order);
  }

  lemma {:induction false} SameReports<T>(slots: seq<Slot<T>>, b1: Buffers<T>, b2: Buffers<T>, order: seq<nat>)
    ensures RealSelect(slots, b1, order) == RealSelect(slots, b2, order).(buffers := b1)
    decreases |order|
  {
    if order != [] {
      SameReports(slots, b1, b2, order[..|order| - 1]);
    }
  }

  lemma DrainKeeps<T>(sent: seq<Wire<T>>, left: seq<Selection<T>>, seen: seq<Selection<T>>, slots: seq<Slot<T>>,
      dummies: seq<nat>, buffers: Buffers<T>, entries: seq<Selection<T>>)
    requires NothingBeyond(left, |slots|) && (forall i | i in buffers :: i < |slots|) && AreBuffered(entries, buffers)
    ensures AllAccounted(sent, left + entries, slots, map[]) <==> AllAccounted(sent, left, slots, buffers)
    ensures NothingBeyond(left + entries, |slots|)
    ensures ClosedOnce(seen, slots, dummies) ==> ClosedOnce(seen + entries, slots, dummies)
  {
    DrainAccounted(sent, left, slots, buffers, entries);
    BufferedKeeps(left, seen, slots, dummies, buffers, entries);
  }

  lemma BufferedKeeps<T>(left: seq<Selection<T>>, seen: seq<Selection<T>>, slots: seq<Slot<T>>, dummies: seq<nat>,
      buffers: Buffers<T>,
                         entries: seq<Selection<T>>)
    requires NothingBeyond(left, |slots|) && (forall i | i in buffers :: i < |slots|) && AreBuffered(entries, buffers)
    ensures NothingBeyond(left + entries, |slots|)
    ensures ClosedOnce(seen, slots, dummies) ==> ClosedOnce(seen + entries, slots, dummies)
  {
    NothingBeyondAppend(left, entries, |slots|);
    forall i: nat
      ensures Closings(seen + entries, i) == Closings(seen, i)
    {
      ClosingsAppend(seen, entries, i);
    }
  }
}
