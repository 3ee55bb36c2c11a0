/**
 Batched selection over ipc receivers, on values (src/ipc_channel/mod.rs:631-883): what the real receiver
 set reports, what replay makes of a logged batch, and why the two agree.
 */
module IpcBatches {
  import opened Channels
  import opened Identities
  import opened RecordLog
  import opened ReplayEngine

  /**
   A receiver in a set (`OpaqueIpcReceiver`): its channel, and whether its closing has been reported. The
   channel has hung up when its senders are gone; what is on the wire can still be read.
   */
  datatype Slot<T> = Slot(wire: Wire<T>, hungUp: bool, metadata: Metadata, closed: bool)

  /** One result of a select (`IpcSelectionResult`). */
  datatype Selection<T> = Message(at: nat, message: DetMessage<T>) | Closing(at: nat)

  /** Early messages, by index and sender. */
  type Buffers<T> = map<nat, Buffer<T>>

  function At<T>(buffers: Buffers<T>, i: nat): Buffer<T> {
    if i in buffers then buffers[i] else map[]
  }

  /** The messages from `s` that come with index `i`, in order. */
  function Given<T>(entries: seq<Selection<T>>, i: nat, s: Path): seq<T> {
    if entries == [] then []
    else
      (if entries[0].Message? && entries[0].at == i && entries[0].message.sender == s then [entries[0].message.value] else [])
      + Given(entries[1..], i, s)
  }

  /** How often the index is reported closed. */
  function Closings<T>(entries: seq<Selection<T>>, i: nat): nat {
    if entries == [] then 0 else (if entries[0].Closing? && entries[0].at == i then 1 else 0) + Closings(entries[1..], i)
  }

  /** What is logged of a select. */
  function EventOf<T>(entry: Selection<T>): IpcSelectEvent {
    match entry
    case Message(i, m) => MessageReceived(i, m.sender)
    case Closing(i) => ChannelClosed(i)
  }

  function EventsOf<T>(entries: seq<Selection<T>>): seq<IpcSelectEvent> {
    seq(|entries|, k requires 0 <= k < |entries| => EventOf(entries[k]))
  }

  lemma {:induction false} GivenAppend<T>(a: seq<Selection<T>>, b: seq<Selection<T>>, i: nat, s: Path)
    ensures Given(a + b, i, s) == Given(a, i, s) + Given(b, i, s)
  {
    if a == [] {
      assert a + b == b;
    } else {
      assert (a + b)[0] == a[0] && (a + b)[1..] == a[1..] + b;
      GivenAppend(a[1..], b, i, s);
    }
  }

  lemma {:induction false} ClosingsAppend<T>(a: seq<Selection<T>>, b: seq<Selection<T>>, i: nat)
    ensures Closings(a + b, i) == Closings(a, i) + Closings(b, i)
  {
    if a == [] {
      assert a + b == b;
    } else {
      assert (a + b)[0] == a[0] && (a + b)[1..] == a[1..] + b;
      ClosingsAppend(a[1..], b, i);
    }
  }

  // ---- The real set ----

  /** The state and results of a set after part of a batch. */
  datatype Progress<T> = Progress(error: Maybe<DesyncError>, entries: seq<Selection<T>>, slots: seq<Slot<T>>, buffers: Buffers<T>)

  /** The real set has something to report of the receiver: a message, or once that it closed. */
  predicate Ready<T>(slots: seq<Slot<T>>, i: nat) {
    i < |slots| && (slots[i].wire != [] || (slots[i].hungUp && !slots[i].closed))
  }

  /** Reports one receiver, if it is ready. */
  function Reported<T>(p: Progress<T>, i: nat): Progress<T> {
    if !Ready(p.slots, i) then p
    else
      var slot := p.slots[i];
      if slot.wire != [] then
        p.(entries := p.entries + [Message(i, slot.wire[0])], slots := p.slots[i := slot.(wire := slot.wire[1..])])
      else
        p.(entries := p.entries + [Closing(i)], slots := p.slots[i := slot.(closed := true)])
  }

  /** The real select, when it looks at the receivers in the given order. */
  function RealSelect<T>(slots: seq<Slot<T>>, buffers: Buffers<T>, order: seq<nat>): Progress<T> {
    if order == [] then Progress(None, [], slots, buffers)
    else Reported(RealSelect(slots, buffers, order[..|order| - 1]), order[|order| - 1])
  }

  /** What a receiver has to report: its messages in order, and then once that it closed. */
  function ToReport<T>(slot: Slot<T>, i: nat): seq<Selection<T>> {
    MessagesAt(slot.wire, i) + if slot.hungUp && !slot.closed then [Closing(i)] else []
  }

  function MessagesAt<T>(wire: Wire<T>, i: nat): seq<Selection<T>> {
    seq(|wire|, k requires 0 <= k < |wire| => Message(i, wire[k]))
  }

  /** What a batch reports of one index. */
  function ReportsOf<T>(entries: seq<Selection<T>>, i: nat): seq<Selection<T>> {
    if entries == [] then []
    else ReportsOf(entries[..|entries| - 1], i) + if entries[|entries| - 1].at == i then [entries[|entries| - 1]] else []
  }

  /** How often the real set looks at an index. */
  function Looks(order: seq<nat>, i: nat): nat {
    if order == [] then 0 else Looks(order[..|order| - 1], i) + if order[|order| - 1] == i then 1 else 0
  }

  lemma NextReport<T>(p: Progress<T>, j: nat, i: nat)
    requires i < |p.slots|
    ensures var q, all := Reported(p, j), ToReport(p.slots[i], i);
            && |q.slots| == |p.slots|
            && ReportsOf(q.entries, i) == ReportsOf(p.entries, i) + (if j == i && all != [] then [all[0]] else [])
            && ToReport(q.slots[i], i) == if j == i && all != [] then all[1..] else all
  {
    var q := Reported(p, j);
    NothingAdded(ReportsOf(p.entries, i));
    if Ready(p.slots, j) {
      assert q.entries[..|p.entries|] == p.entries;
      if j == i && p.slots[i].wire != [] {
        assert MessagesAt(p.slots[i].wire, i) == [Message(i, p.slots[i].wire[0])] + MessagesAt(p.slots[i].wire[1..], i);
      }
    }
  }

  lemma OneFurther<T>(all: seq<T>, n: nat)
    requires n <= |all|
    ensures all[n..] == [] <==> n == |all|
    ensures n < |all| ==> all[..n] + [all[n..][0]] == all[..n + 1] && all[n..][1..] == all[n + 1..]
  {
  }

  /**
   The real set reports of each receiver what it has to report, in order, one thing each time it looks at it, for as
   long as there is anything, and leaves the rest.
   */
  lemma {:induction false} RealSelectReports<T>(slots: seq<Slot<T>>, buffers: Buffers<T>, order: seq<nat>, i: nat)
    requires i < |slots|
    ensures var p, all := RealSelect(slots, buffers, order), ToReport(slots[i], i);
            var n := if Looks(order, i) < |all| then Looks(order, i) else |all|;
            && |p.slots| == |slots| && ReportsOf(p.entries, i) == all[..n] && ToReport(p.slots[i], i) == all[n..]
    decreases |order|
  {
    if order != [] {
      var m := |order| - 1;
      RealSelectReports(slots, buffers, order[..m], i);
      NextReport(RealSelect(slots, buffers, order[..m]), order[m], i);
      var all, before := ToReport(slots[i], i), Looks(order[..m], i);
      var n := if before < |all| then before else |all|;
      OneFurther(all, n);
      NothingAdded(all[..n]);
      assert Looks(order, i) == before + if order[m] == i then 1 else 0;
    }
  }

  // ---- Replay ----

  /** Sets the buffer of one index. An index with nothing buffered need not be there. */
  ghost function Keep<T>(buffers: Buffers<T>, i: nat, b: Buffer<T>): Buffers<T> {
    if b == At(buffers, i) then buffers else buffers[i := b]
  }

  /** `do_replay_recv_for_entry`: one message from the expected sender. A closed channel is remembered. */
  ghost function ReplayMessage<T>(p: Progress<T>, i: nat, s: Path, patience: nat): Progress<T>
    requires i < |p.slots|
  {
    var slot := p.slots[i];
    var after := RecvExpected(s, At(p.buffers, i), slot.wire, patience, slot.hungUp);
    var slot' := slot.(wire := after.wire, closed := slot.closed || after.result == Nothing(HungUp));
    var (error, entries) :=
      match after.result
      case Got(v) => (None, [Message(i, DetMessage(s, v))])
      case Nothing(HungUp) => (Some(ChannelClosedUnexpected(i)), [Closing(i)])
      case Nothing(TimedOut) => (Some(TimedOutWaiting), []);
    Progress(error, p.entries + entries, p.slots[i := slot'], Keep(p.buffers, i, after.buffer))
  }

  /** The closed-channel case of `replay_select_event`. A message that comes instead is handed back. */
  ghost function ReplayClosing<T>(p: Progress<T>, i: nat, patience: nat): Progress<T>
    requires i < |p.slots|
  {
    var slot := p.slots[i];
    if slot.wire != [] && patience > 0 then
      Progress(Some(ChannelClosedExpected), p.entries + [Message(i, slot.wire[0])],
               p.slots[i := slot.(wire := slot.wire[1..])], p.buffers)
    else if ReadFailure(slot.wire, patience, slot.hungUp).HungUp? then
      p.(entries := p.entries + [Closing(i)], slots := p.slots[i := slot.(closed := true)])
    else
      p.(error := Some(TimedOutWaiting))
  }

  /** `replay_select_event`. */
  ghost function ReplayEvent<T>(p: Progress<T>, event: IpcSelectEvent, patience: nat): Progress<T> {
    if event.index >= |p.slots| then p.(error := Some(MissingReceiver(event.index)))
    else match event
      case MessageReceived(i, s) => ReplayMessage(p, i, s, patience)
      case ChannelClosed(i) => ReplayClosing(p, i, patience)
  }

  /** The replay loop of `rr_select`: up to the first error. Patience may differ from event to event. */
  ghost function ReplayEvents<T>(slots: seq<Slot<T>>, buffers: Buffers<T>, events: seq<IpcSelectEvent>,
      patience: nat -> nat): Progress<T> {
    if events == [] then Progress(None, [], slots, buffers)
    else
      var n := |events| - 1;
      var p := ReplayEvents(slots, buffers, events[..n], patience);
      if p.error.Some? then p else ReplayEvent(p, events[n], patience(n))
  }

  // ---- What a batch answers ----

  /** What waiting for a message of `s` at index `i` comes to. */
  ghost predicate MessageAnswer<T>(slot: Slot<T>, b: Buffer<T>, i: nat, s: Path, patience: nat,
      error: Maybe<DesyncError>, entry: Maybe<Selection<T>>) {
    var pending := Pending(b, slot.wire, s);
    if Buffered(b, s) != [] || InReach(s, slot.wire, patience) then
      pending != [] && error == None && entry == Some(Message(i, DetMessage(s, pending[0])))
    else if slot.hungUp && pending == [] && patience > |slot.wire| then
      error == Some(ChannelClosedUnexpected(i)) && entry == Some(Closing(i))
    else
      error == Some(TimedOutWaiting) && entry == None
  }

  /** What waiting for the closing of index `i` comes to. */
  ghost predicate ClosingAnswer<T>(slot: Slot<T>, i: nat, patience: nat, error: Maybe<DesyncError>,
      entry: Maybe<Selection<T>>) {
    if patience > 0 && slot.wire != [] then
      error == Some(ChannelClosedExpected) && entry == Some(Message(i, slot.wire[0]))
    else if patience > 0 && slot.hungUp then
      error == None && entry == Some(Closing(i))
    else
      error == Some(TimedOutWaiting) && entry == None
  }

  /** The answer to a logged event: its entry, an error, or an error with the entry that came instead. */
  ghost predicate Answer<T>(slots: seq<Slot<T>>, buffers: Buffers<T>, event: IpcSelectEvent, patience: nat,
      error: Maybe<DesyncError>, entry: Maybe<Selection<T>>) {
    if event.index >= |slots| then error == Some(MissingReceiver(event.index)) && entry == None
    else match event
      case MessageReceived(i, s) => MessageAnswer(slots[i], At(buffers, i), i, s, patience, error, entry)
      case ChannelClosed(i) => ClosingAnswer(slots[i], i, patience, error, entry)
  }

  function EntryOf<T>(entries: seq<Selection<T>>): Maybe<Selection<T>> {
    if entries == [] then None else Some(entries[0])
  }

  lemma EventAnswers<T>(p: Progress<T>, event: IpcSelectEvent, patience: nat)
    requires p.error.None? && p.entries == []
    ensures var q := ReplayEvent(p, event, patience);
            |q.entries| <= 1 && Answer(p.slots, p.buffers, event, patience, q.error, EntryOf(q.entries))
  {
    if event.index < |p.slots| && event.MessageReceived? {
      var slot, b := p.slots[event.index], At(p.buffers, event.index);
      RecvExpectedRefines(event.sender, b, slot.wire, patience, slot.hungUp);
      HangUpExactly(event.sender, b, slot.wire, patience, slot.hungUp);
    }
  }

  /** An event that is answered without an error is answered by its own entry. */
  lemma AnswerFits<T>(slots: seq<Slot<T>>, buffers: Buffers<T>, event: IpcSelectEvent, patience: nat,
      entry: Maybe<Selection<T>>)
    requires Answer(slots, buffers, event, patience, None, entry)
    ensures entry.Some? && EventOf(entry.value) == event
  {
  }

  lemma EventsOfAppend<T>(a: seq<Selection<T>>, e: Selection<T>)
    ensures EventsOf(a + [e]) == EventsOf(a) + [EventOf(e)]
  {
  }

  /**
   A replayed batch answers its events in order, each with its own entry. It does so up to the end, or to an event at
   which it fails, as that event does in the state that the others have led to; it has then at most one entry more.
   */
  lemma {:induction false} BatchAnswers<T>(slots: seq<Slot<T>>, buffers: Buffers<T>, events: seq<IpcSelectEvent>,
      patience: nat -> nat) returns (n: nat)
    ensures var p := ReplayEvents(slots, buffers, events, patience);
            && n <= |events| && n <= |p.entries| && EventsOf(p.entries[..n]) == events[..n]
            && (if p.error.None? then n == |events| == |p.entries|
                else
                  && n < |events| && |p.entries| <= n + 1
                  && var before := ReplayEvents(slots, buffers, events[..n], patience);
                  && before.error.None?
                  && Answer(before.slots, before.buffers, events[n], patience(n), p.error, EntryOf(p.entries[n..])))
    decreases |events|
  {
    n := 0;
    if events != [] {
      var m := |events| - 1;
      var before := ReplayEvents(slots, buffers, events[..m], patience);
      n := BatchAnswers(slots, buffers, events[..m], patience);
      PrefixOfPrefix(events, m, n);
      if before.error.None? {
        n := LastAnswered(slots, buffers, events, patience, before);
      }
    }
  }

  lemma PrefixOfPrefix<T>(s: seq<T>, m: nat, n: nat)
    requires n <= m <= |s|
    ensures s[..m][..n] == s[..n]
  {
  }

  lemma LastAnswered<T>(slots: seq<Slot<T>>, buffers: Buffers<T>, events: seq<IpcSelectEvent>, patience: nat -> nat,
      before: Progress<T>) returns (n: nat)
    requires events != [] && before == ReplayEvents(slots, buffers, events[..|events| - 1], patience)
    requires before.error.None? && |before.entries| == |events| - 1
    requires EventsOf(before.entries) == events[..|events| - 1]
    ensures var p, m := ReplayEvents(slots, buffers, events, patience), |events| - 1;
            && n == (if p.error.None? then m + 1 else m) && n <= |p.entries| <= m + 1
            && EventsOf(p.entries[..n]) == events[..n]
            && (p.error.None? ==> |p.entries| == n)
            && Answer(before.slots, before.buffers, events[m], patience(m), p.error, EntryOf(p.entries[m..]))
  {
    var m := |events| - 1;
    EventAnswers(before.(entries := []), events[m], patience(m));
    EventAddsEntries(before, events[m], patience(m));
    var after := ReplayEvent(before.(entries := []), events[m], patience(m));
    n := OneMoreAnswered(before.entries, after, events, m, before, patience(m));
  }

  lemma OneMoreAnswered<T>(entries: seq<Selection<T>>, after: Progress<T>, events: seq<IpcSelectEvent>, m: nat,
      before: Progress<T>, patience: nat) returns (n: nat)
    requires |events| == m + 1 && |entries| == m && EventsOf(entries) == events[..m] && |after.entries| <= 1
    requires Answer(before.slots, before.buffers, events[m], patience, after.error, EntryOf(after.entries))
    ensures n == (if after.error.None? then m + 1 else m) && n <= |entries + after.entries|
    ensures EventsOf((entries + after.entries)[..n]) == events[..n]
    ensures after.error.None? ==> |after.entries| == 1
    ensures (entries + after.entries)[m..] == after.entries
  {
    n := m;
    assert (entries + after.entries)[..m] == entries;
    if after.error.None? {
      n := m + 1;
      AnswerFits(before.slots, before.buffers, events[m], patience, EntryOf(after.entries));
      assert after.entries == [after.entries[0]];
      EventsOfAppend(entries, after.entries[0]);
      assert (entries + after.entries)[..n] == entries + [after.entries[0]];
      assert events[..n] == events[..m] + [events[m]];
    }
  }

  // ---- Nothing is lost ----

  /** What was sent on a channel is what has left the set, then what is buffered, then what is on the wire, in order
      sender by sender. */
  ghost predicate AccountedAt<T>(sent: Wire<T>, left: seq<Selection<T>>, i: nat, b: Buffer<T>, w: Wire<T>) {
    forall s :: From(sent, s) == Given(left, i, s) + Pending(b, w, s)
  }

  ghost predicate AllAccounted<T>(sent: seq<Wire<T>>, left: seq<Selection<T>>, slots: seq<Slot<T>>,
      buffers: Buffers<T>) {
    && |sent| == |slots|
    && (forall i: nat | i < |slots| :: AccountedAt(sent[i], left, i, At(buffers, i), slots[i].wire))
  }

  /**
   The event closes a receiver, but a message comes, and the buffer holds other messages of its sender, which it
   overtakes. `p` is the state before the event.
   */
  ghost predicate OvertakesNext<T>(p: Progress<T>, event: IpcSelectEvent, patience: nat) {
    && p.error.None? && event.ChannelClosed? && event.index < |p.slots|
    && var i, wire := event.index, p.slots[event.index].wire;
    && patience > 0 && wire != []
    && exists v :: v in Buffered(At(p.buffers, i), wire[0].sender) && v != wire[0].value
  }

  /** It happens at the event `k`, which the events before lead to. */
  ghost predicate OvertakesAt<T>(slots: seq<Slot<T>>, buffers: Buffers<T>, events: seq<IpcSelectEvent>,
      patience: nat -> nat, k: nat)
    requires k < |events|
  {
    OvertakesNext(ReplayEvents(slots, buffers, events[..k], patience), events[k], patience(k))
  }

  ghost predicate Overtaken<T>(slots: seq<Slot<T>>, buffers: Buffers<T>, events: seq<IpcSelectEvent>,
      patience: nat -> nat) {
    exists k :: 0 <= k < |events| && OvertakesAt(slots, buffers, events, patience, k)
  }

  /** How one message from `s` leaves. */
  lemma MessageLeaves<T>(sent: Wire<T>, left: seq<Selection<T>>, i: nat, b: Buffer<T>, w: Wire<T>, s: Path, v: T,
      after: Received<T>)
    requires AccountedAt(sent, left, i, b, w)
    requires after.result == Got(v) && DequeuesOnly(s, b, w, after)
    ensures AccountedAt(sent, left + [Message(i, DetMessage(s, v))], i, after.buffer, after.wire)
  {
    var e := Message(i, DetMessage(s, v));
    forall u
      ensures From(sent, u) == Given(left + [e], i, u) + Pending(after.buffer, after.wire, u)
    {
      GivenAppend(left, [e], i, u);
      OneEntry(e, i, u);
      assert From(sent, u) == Given(left, i, u) + Pending(b, w, u);
      Shift(Given(left, i, u), v, Pending(after.buffer, after.wire, u));
    }
  }

  lemma Shift<T>(a: seq<T>, v: T, b: seq<T>)
    ensures a + ([v] + b) == a + [v] + b && a + [] == a
  {
  }

  lemma OneEntry<T>(e: Selection<T>, i: nat, s: Path)
    ensures Given([e], i, s) == if e.Message? && e.at == i && e.message.sender == s then [e.message.value] else []
    ensures Given<T>([], i, s) == []
  {
  }

  /** An entry of another index, or a closing, changes nothing for this one. */
  lemma OthersStay<T>(sent: Wire<T>, left: seq<Selection<T>>, more: seq<Selection<T>>, i: nat,
                      b: Buffer<T>, w: Wire<T>, b': Buffer<T>, w': Wire<T>)
    requires AccountedAt(sent, left, i, b, w) && SamePending(b', w', b, w)
    requires more == [] || (|more| == 1 && (more[0].at != i || more[0].Closing?))
    ensures AccountedAt(sent, left + more, i, b', w')
  {
    forall u
      ensures From(sent, u) == Given(left + more, i, u) + Pending(b', w', u)
    {
      GivenAppend(left, more, i, u);
      assert Given(more, i, u) == [];
      assert Given(left, i, u) + [] == Given(left, i, u);
      assert From(sent, u) == Given(left, i, u) + Pending(b, w, u);
      assert Pending(b', w', u) == Pending(b, w, u);
    }
  }

  lemma ReplayMessageAccounted<T>(sent: seq<Wire<T>>, left: seq<Selection<T>>, p: Progress<T>, i: nat, s: Path,
      patience: nat)
    requires AllAccounted(sent, left, p.slots, p.buffers) && i < |p.slots| && p.entries == []
    ensures var q := ReplayMessage(p, i, s, patience);
            AllAccounted(sent, left + q.entries, q.slots, q.buffers)
  {
    var q := ReplayMessage(p, i, s, patience);
    var b, slot := At(p.buffers, i), p.slots[i];
    var after := RecvExpected(s, b, slot.wire, patience, slot.hungUp);
    RecvExpectedRefines(s, b, slot.wire, patience, slot.hungUp);
    forall j: nat | j < |p.slots|
      ensures AccountedAt(sent[j], left + q.entries, j, At(q.buffers, j), q.slots[j].wire)
    {
      assert AccountedAt(sent[j], left, j, At(p.buffers, j), p.slots[j].wire);
      if j == i && after.result.Got? {
        MessageLeaves(sent[i], left, i, b, slot.wire, s, after.result.value, after);
        assert q.entries == [Message(i, DetMessage(s, after.result.value))];
      } else {
        OthersStay(sent[j], left, q.entries, j, At(p.buffers, j), p.slots[j].wire, At(q.buffers, j), q.slots[j].wire);
      }
    }
  }

  /** A value can be moved to the front of a queue without a change only if everything it passes is equal to it. */
  lemma MovingUp<T>(q: seq<T>, v: T)
    ensures q + [v] == [v] + q <==> forall x | x in q :: x == v
  {
    if q + [v] == [v] + q {
      var k := 0;
      while k < |q|
        invariant 0 <= k <= |q|
        invariant forall n | 0 <= n < k :: q[n] == v
      {
        assert (q + [v])[k] == ([v] + q)[k];
        k := k + 1;
      }
    }
    if forall x | x in q :: x == v {
      forall k | 0 <= k <= |q|
        ensures (q + [v])[k] == ([v] + q)[k]
      {
        assert k < |q| ==> q[k] in q;
        assert k > 0 ==> q[k - 1] in q;
      }
    }
  }

  lemma Reordered<T>(g: seq<T>, q: seq<T>, v: T, rest: seq<T>, all: seq<T>, g': seq<T>, tail: seq<T>)
    requires tail == [v] + rest && all == g + (q + tail) && g' == g + [v]
    ensures all == g' + (q + rest) <==> forall x | x in q :: x == v
  {
    MovingUp(q, v);
    assert all == g + (q + [v]) + rest && g' + (q + rest) == g + ([v] + q) + rest;
    assert all[|g|..|g| + |q| + 1] == q + [v] && (g' + (q + rest))[|g|..|g| + |q| + 1] == [v] + q;
  }

  lemma HeadLeaves<T>(sent: Wire<T>, left: seq<Selection<T>>, i: nat, b: Buffer<T>, w: Wire<T>, s: Path)
    requires w != [] && From(sent, s) == Given(left, i, s) + Pending(b, w, s)
    ensures From(sent, s) == Given(left + [Message(i, w[0])], i, s) + Pending(b, w[1..], s) <==>
              (w[0].sender == s ==> forall x | x in Buffered(b, s) :: x == w[0].value)
  {
    var g, g' := Given(left, i, s), Given(left + [Message(i, w[0])], i, s);
    GivenAppend(left, [Message(i, w[0])], i, s);
    OneEntry(Message(i, w[0]), i, s);
    if w[0].sender == s {
      Reordered(g, Buffered(b, s), w[0].value, From(w[1..], s), From(sent, s), g', From(w, s));
    } else {
      Shift(g, w[0].value, []);
      assert From(w, s) == From(w[1..], s);
    }
  }

  /** The head of the wire leaves: in order exactly if the buffer holds nothing else of its sender. */
  lemma WireHeadLeaves<T>(sent: Wire<T>, left: seq<Selection<T>>, i: nat, b: Buffer<T>, w: Wire<T>)
    requires w != [] && AccountedAt(sent, left, i, b, w)
    ensures AccountedAt(sent, left + [Message(i, w[0])], i, b, w[1..]) <==>
              forall x | x in Buffered(b, w[0].sender) :: x == w[0].value
  {
    forall s
      ensures From(sent, s) == Given(left + [Message(i, w[0])], i, s) + Pending(b, w[1..], s) <==>
                (w[0].sender == s ==> forall x | x in Buffered(b, s) :: x == w[0].value)
    {
      HeadLeaves(sent, left, i, b, w, s);
    }
  }

  lemma ReplayClosingAccounted<T>(sent: seq<Wire<T>>, left: seq<Selection<T>>, p: Progress<T>, i: nat, patience: nat)
    requires AllAccounted(sent, left, p.slots, p.buffers) && i < |p.slots| && p.entries == [] && p.error.None?
    ensures var q := ReplayClosing(p, i, patience);
            AllAccounted(sent, left + q.entries, q.slots, q.buffers) <==> !OvertakesNext(p, ChannelClosed(i), patience)
  {
    var q := ReplayClosing(p, i, patience);
    var b, wire := At(p.buffers, i), p.slots[i].wire;
    forall j: nat | j < |p.slots| && !(j == i && wire != [] && patience > 0)
      ensures AccountedAt(sent[j], left + q.entries, j, At(q.buffers, j), q.slots[j].wire)
    {
      assert AccountedAt(sent[j], left, j, At(p.buffers, j), p.slots[j].wire);
      OthersStay(sent[j], left, q.entries, j, At(p.buffers, j), p.slots[j].wire, At(q.buffers, j), q.slots[j].wire);
    }
    if wire != [] && patience > 0 {
      assert AccountedAt(sent[i], left, i, b, wire);
      WireHeadLeaves(sent[i], left, i, b, wire);
      assert q.entries == [Message(i, wire[0])];
      assert OvertakesNext(p, ChannelClosed(i), patience) <==> !(forall x | x in Buffered(b, wire[0].sender) :: x == wire[0].value);
    }
  }

  /** The entries of the batch so far do not matter to what the next event does. */
  lemma EventAddsEntries<T>(p: Progress<T>, event: IpcSelectEvent, patience: nat)
    requires p.error.None?
    ensures var q, r := ReplayEvent(p, event, patience), ReplayEvent(p.(entries := []), event, patience);
            q == r.(entries := p.entries + r.entries)
  {
    var q, r := ReplayEvent(p, event, patience), ReplayEvent(p.(entries := []), event, patience);
    assert p.entries + [] == p.entries;
    assert q == r.(entries := p.entries + r.entries);
  }

  lemma {:induction false} ErrorEndsBatch<T>(slots: seq<Slot<T>>, buffers: Buffers<T>, events: seq<IpcSelectEvent>,
      patience: nat -> nat, k: nat)
    requires k <= |events| && ReplayEvents(slots, buffers, events[..k], patience).error.Some?
    ensures ReplayEvents(slots, buffers, events, patience) == ReplayEvents(slots, buffers, events[..k], patience)
    decreases |events|
  {
    if k < |events| {
      var n := |events| - 1;
      assert events[..n][..k] == events[..k];
      ErrorEndsBatch(slots, buffers, events[..n], patience, k);
    } else {
      assert events[..k] == events;
    }
  }

  /** Overtaking ends the batch. */
  lemma OvertakingIsAnError<T>(slots: seq<Slot<T>>, buffers: Buffers<T>, events: seq<IpcSelectEvent>,
      patience: nat -> nat, k: nat)
    requires k < |events| && OvertakesAt(slots, buffers, events, patience, k)
    ensures ReplayEvents(slots, buffers, events, patience).error == Some(ChannelClosedExpected)
  {
    assert events[..k + 1][..k] == events[..k];
    ErrorEndsBatch(slots, buffers, events, patience, k + 1);
  }

  lemma OvertakesInPrefix<T>(slots: seq<Slot<T>>, buffers: Buffers<T>, events: seq<IpcSelectEvent>,
      patience: nat -> nat, n: nat, k: nat)
    requires k < n <= |events|
    ensures OvertakesAt(slots, buffers, events[..n], patience, k) <==> OvertakesAt(slots, buffers, events, patience, k)
  {
    assert events[..n][..k] == events[..k];
  }

  /** One event more. */
  lemma OvertakenBefore<T>(slots: seq<Slot<T>>, buffers: Buffers<T>, events: seq<IpcSelectEvent>, patience: nat -> nat)
    requires events != [] && Overtaken(slots, buffers, events[..|events| - 1], patience)
    ensures Overtaken(slots, buffers, events, patience)
    ensures ReplayEvents(slots, buffers, events[..|events| - 1], patience).error.Some?
  {
    var n := |events| - 1;
    var k :| 0 <= k < n && OvertakesAt(slots, buffers, events[..n], patience, k);
    OvertakingIsAnError(slots, buffers, events[..n], patience, k);
    OvertakesInPrefix(slots, buffers, events, patience, n, k);
  }

  lemma OvertakenNow<T>(slots: seq<Slot<T>>, buffers: Buffers<T>, events: seq<IpcSelectEvent>, patience: nat -> nat)
    requires events != [] && !Overtaken(slots, buffers, events[..|events| - 1], patience)
    ensures Overtaken(slots, buffers, events, patience) <==> OvertakesAt(slots, buffers, events, patience, |events| - 1)
  {
    var n := |events| - 1;
    forall k | 0 <= k < n
      ensures !OvertakesAt(slots, buffers, events, patience, k)
    {
      OvertakesInPrefix(slots, buffers, events, patience, n, k);
    }
  }

  /**
   Conservation: however a replayed batch ends, with all its entries, half way with some of them, or with an
   unexpected one, these entries, the buffers and the wires together hold every message that was there, in
   order for each index and sender. The one exception, exactly, is a batch that has a closing where, after the
   events before it, a message is on the wire and the buffer holds other messages of its sender.
   */
  lemma {:induction false} BatchAccounted<T>(sent: seq<Wire<T>>, left: seq<Selection<T>>, slots: seq<Slot<T>>,
      buffers: Buffers<T>,
                                             events: seq<IpcSelectEvent>, patience: nat -> nat)
    requires AllAccounted(sent, left, slots, buffers)
    ensures var p := ReplayEvents(slots, buffers, events, patience);
            AllAccounted(sent, left + p.entries, p.slots, p.buffers) <==> !Overtaken(slots, buffers, events, patience)
    decreases |events|
  {
    if events == [] {
      assert left + [] == left;
    } else {
      var n := |events| - 1;
      var p := ReplayEvents(slots, buffers, events[..n], patience);
      BatchAccounted(sent, left, slots, buffers, events[..n], patience);
      if Overtaken(slots, buffers, events[..n], patience) {
        OvertakenBefore(slots, buffers, events, patience);
      } else {
        OvertakenNow(slots, buffers, events, patience);
      }
      if p.error.None? {
        var event := events[n];
        var start := p.(entries := []);
        var r := ReplayEvent(start, event, patience(n));
        EventAddsEntries(p, event, patience(n));
        assert (left + p.entries) + r.entries == left + (p.entries + r.entries);
        if event.index >= |slots| {
          assert left + p.entries + [] == left + p.entries;
        } else if event.MessageReceived? {
          ReplayMessageAccounted(sent, left + p.entries, start, event.index, event.sender, patience(n));
        } else {
          ReplayClosingAccounted(sent, left + p.entries, start, event.index, patience(n));
        }
      }
    }
  }

  /**
   It can happen: the log has a message of one sender and then the closing, and the wire two messages of another around
   it. The first of the two is buffered when the second is handed back.
   */
  lemma OvertakingHappens(a: nat, b: nat, x: nat, metadata: Metadata)
    requires a != b
    ensures var wire := [DetMessage([1], a), DetMessage([2], x), DetMessage([1], b)];
            var slots := [Slot(wire, false, metadata, false)];
            var events := [MessageReceived(0, [2]), ChannelClosed(0)];
            var p := ReplayEvents(slots, map[], events, Always(3));
            && AllAccounted([wire], [], slots, map[])
            && p.entries == [Message(0, DetMessage([2], x)), Message(0, DetMessage([1], b))]
            && Buffered(At(p.buffers, 0), [1]) == [a]
            && Overtaken(slots, map[], events, Always(3))
            && !AllAccounted([wire], p.entries, p.slots, p.buffers)
  {
    var wire := [DetMessage([1], a), DetMessage([2], x), DetMessage([1], b)];
    var slots := [Slot(wire, false, metadata, false)];
    var events := [MessageReceived(0, [2]), ChannelClosed(0)];
    OvertakingRun(slots, wire, a, b, x);
    assert a in Buffered(At(ReplayEvents(slots, map[], events[..1], Always(3)).buffers, 0), [1]);
    assert OvertakesAt(slots, map[], events, Always(3), 1);
    BatchAccounted([wire], [], slots, map[], events, Always(3));
    var entries := ReplayEvents(slots, map[], events, Always(3)).entries;
    assert [] + entries == entries;
  }

  lemma OvertakingRun(slots: seq<Slot<nat>>, wire: Wire<nat>, a: nat, b: nat, x: nat)
    requires wire == [DetMessage([1], a), DetMessage([2], x), DetMessage([1], b)]
    requires |slots| == 1 && slots[0].wire == wire
    ensures var events := [MessageReceived(0, [2]), ChannelClosed(0)];
            var before, after := ReplayEvents(slots, map[], events[..1], Always(3)), ReplayEvents(slots, map[], events, Always(3));
            && before.error.None? && |before.slots| == 1
            && before.slots[0].wire == [DetMessage([1], b)] && Buffered(At(before.buffers, 0), [1]) == [a]
            && after.entries == [Message(0, DetMessage([2], x)), Message(0, DetMessage([1], b))]
            && Buffered(At(after.buffers, 0), [1]) == [a]
  {
    var events := [MessageReceived(0, [2]), ChannelClosed(0)];
    assert events[..1][..0] == [] && events[..1][0] == MessageReceived(0, [2]);
    assert wire[1..][0] == DetMessage([2], x) && wire[1..][1..] == [DetMessage([1], b)];
    var first := RecvExpected([2], map[], wire, 3, slots[0].hungUp);
    assert first == Scan([2], Put(map[], [1], a), wire[1..], 2, slots[0].hungUp);
    assert first == Received(Got(x), Put(map[], [1], a), [DetMessage([1], b)]);
    assert Put(map[], [1], a)[[1]] == [a];
  }

  /** The message that the real set reports goes from the wire to what has left. */
  lemma HeadReported<T>(left: seq<Selection<T>>, i: nat, b: Buffer<T>, w: Wire<T>, s: Path)
    requires Drained(b) && w != []
    ensures Given(left + [Message(i, w[0])], i, s) + Pending(b, w[1..], s) == Given(left, i, s) + Pending(b, w, s)
  {
    GivenAppend(left, [Message(i, w[0])], i, s);
    OneEntry(Message(i, w[0]), i, s);
    assert Buffered(b, s) == [];
    if w[0].sender == s {
      assert From(w, s) == [w[0].value] + From(w[1..], s);
      PassOn(Given(left, i, s), w[0].value, From(w[1..], s));
    } else {
      assert From(w, s) == From(w[1..], s);
      Shift(Given(left, i, s), w[0].value, []);
    }
  }

  lemma PassOn<T>(g: seq<T>, v: T, rest: seq<T>)
    ensures (g + [v]) + ([] + rest) == g + ([] + ([v] + rest))
  {
  }

  lemma OtherReported<T>(left: seq<Selection<T>>, e: Selection<T>, i: nat, s: Path)
    requires e.at != i || e.Closing?
    ensures Given(left + [e], i, s) == Given(left, i, s)
  {
    GivenAppend(left, [e], i, s);
    OneEntry(e, i, s);
  }

  lemma {:induction false} RealSelectMoves<T>(left: seq<Selection<T>>, slots: seq<Slot<T>>, buffers: Buffers<T>,
      order: seq<nat>, i: nat, s: Path)
    requires (forall j :: Drained(At(buffers, j))) && i < |slots|
    ensures var p := RealSelect(slots, buffers, order);
            && |p.slots| == |slots| && p.buffers == buffers
            && Given(left + p.entries, i, s) + Pending(At(buffers, i), p.slots[i].wire, s)
               == Given(left, i, s) + Pending(At(buffers, i), slots[i].wire, s)
    decreases |order|
  {
    if order == [] {
      assert left + [] == left;
    } else {
      var n := |order| - 1;
      var p := RealSelect(slots, buffers, order[..n]);
      RealSelectMoves(left, slots, buffers, order[..n], i, s);
      if Ready(p.slots, order[n]) {
        var q := Reported(p, order[n]);
        var e := q.entries[|p.entries|];
        assert left + q.entries == left + p.entries + [e];
        assert Drained(At(buffers, i));
        if order[n] == i && e.Message? {
          HeadReported(left + p.entries, i, At(buffers, i), p.slots[i].wire, s);
        } else {
          OtherReported(left + p.entries, e, i, s);
        }
      }
    }
  }

  /** The real set reports in order if nothing is buffered any more: it neither loses nor reorders, nor makes up for it. */
  lemma RealSelectAccounted<T>(sent: seq<Wire<T>>, left: seq<Selection<T>>, slots: seq<Slot<T>>, buffers: Buffers<T>,
      order: seq<nat>)
    requires forall i :: Drained(At(buffers, i))
    ensures var p := RealSelect(slots, buffers, order);
            AllAccounted(sent, left + p.entries, p.slots, buffers) <==> AllAccounted(sent, left, slots, buffers)
  {
    var p := RealSelect(slots, buffers, order);
    RealClosings(slots, buffers, order, 0);
    forall i: nat | i < |slots| && |sent| == |slots|
      ensures AccountedAt(sent[i], left + p.entries, i, At(buffers, i), p.slots[i].wire) <==>
              AccountedAt(sent[i], left, i, At(buffers, i), slots[i].wire)
    {
      forall s
        ensures Given(left + p.entries, i, s) + Pending(At(buffers, i), p.slots[i].wire, s)
             == Given(left, i, s) + Pending(At(buffers, i), slots[i].wire, s)
      {
        RealSelectMoves(left, slots, buffers, order, i, s);
      }
    }
  }

  // ---- Replay of what was recorded ----

  /**
   A recording set and a replaying set have the same future: on each channel the same messages are still to
   come from each sender, interleaved in any way, and it will or will not hang up. Wires hold all that is to
   come; that a message has not arrived yet is a matter of patience.
   */
  ghost predicate Agree<T>(actual: seq<Slot<T>>, slots: seq<Slot<T>>, buffers: Buffers<T>) {
    && |actual| == |slots|
    && (forall i: nat | i < |actual| :: AgreeAt(actual[i], slots[i], At(buffers, i)))
  }

  ghost predicate AgreeAt<T>(actual: Slot<T>, slot: Slot<T>, b: Buffer<T>) {
    && actual.hungUp == slot.hungUp && actual.closed == slot.closed
    && (forall s :: From(actual.wire, s) == Pending(b, slot.wire, s))
  }

  /** No reported closing can be contradicted: then there is nothing buffered and nothing on the wire. */
  lemma ClosedMeansEmpty<T>(actual: Slot<T>, slot: Slot<T>, b: Buffer<T>)
    requires AgreeAt(actual, slot, b) && actual.wire == []
    ensures Drained(b) && slot.wire == []
  {
    forall s
      ensures Pending(b, slot.wire, s) == []
    {
      assert From(actual.wire, s) == [];
    }
    NothingPending(b, slot.wire);
  }

  lemma MessageReplays<T>(actual: Slot<T>, slot: Slot<T>, b: Buffer<T>, patience: nat)
    requires AgreeAt(actual, slot, b) && actual.wire != [] && patience > |slot.wire|
    ensures var after := RecvExpected(actual.wire[0].sender, b, slot.wire, patience, slot.hungUp);
            && after.result == Got(actual.wire[0].value)
            && |after.wire| <= |slot.wire|
            && AgreeAt(actual.(wire := actual.wire[1..]), slot.(wire := after.wire), after.buffer)
  {
    var m := actual.wire[0];
    var after := RecvExpected(m.sender, b, slot.wire, patience, slot.hungUp);
    RecvExpectedRefines(m.sender, b, slot.wire, patience, slot.hungUp);
    PatientRecv(m.sender, b, slot.wire, patience, slot.hungUp);
    RecvShortens(m.sender, b, slot.wire, patience, slot.hungUp);
    assert From(actual.wire, m.sender) == [m.value] + From(actual.wire[1..], m.sender);
    assert From(actual.wire, m.sender) == Pending(b, slot.wire, m.sender);
    assert after.result.value == Pending(b, slot.wire, m.sender)[0];
    forall s
      ensures From(actual.wire[1..], s) == Pending(after.buffer, after.wire, s)
    {
      assert From(actual.wire, s) == Pending(b, slot.wire, s);
      if s == m.sender {
        assert Pending(b, slot.wire, s)[1..] == Pending(after.buffer, after.wire, s);
      }
    }
  }

  lemma {:induction false} RecvShortens<T>(s: Path, b: Buffer<T>, w: Wire<T>, patience: nat, hungUp: bool)
    ensures |RecvExpected(s, b, w, patience, hungUp).wire| <= |w|
    decreases |w|
  {
    if Buffered(b, s) == [] && w != [] && patience > 0 && w[0].sender != s {
      var b' := Put(b, w[0].sender, w[0].value);
      assert RecvExpected(s, b', w[1..], patience - 1, hungUp) == Scan(s, b', w[1..], patience - 1, hungUp);
      RecvShortens(s, b', w[1..], patience - 1, hungUp);
    }
  }

  /** Patience for every message that is still to come, and for a hang-up after them. */
  ghost predicate Patient<T>(slots: seq<Slot<T>>, patience: nat) {
    forall i: nat | i < |slots| :: patience > |slots[i].wire|
  }

  lemma ReportReplays<T>(p: Progress<T>, r: Progress<T>, i: nat, patience: nat)
    requires Agree(p.slots, r.slots, r.buffers) && p.entries == r.entries && r.error.None?
    requires Ready(p.slots, i) && Patient(r.slots, patience)
    ensures var q := Reported(p, i);
            var r' := ReplayEvent(r, EventOf(q.entries[|p.entries|]), patience);
            && r'.error.None? && r'.entries == q.entries
            && Agree(q.slots, r'.slots, r'.buffers) && Patient(r'.slots, patience)
  {
    var q := Reported(p, i);
    assert AgreeAt(p.slots[i], r.slots[i], At(r.buffers, i));
    if p.slots[i].wire != [] {
      MessageReplays(p.slots[i], r.slots[i], At(r.buffers, i), patience);
    } else {
      ClosedMeansEmpty(p.slots[i], r.slots[i], At(r.buffers, i));
    }
    var r' := ReplayEvent(r, EventOf(q.entries[|p.entries|]), patience);
    forall j: nat | j < |q.slots|
      ensures AgreeAt(q.slots[j], r'.slots[j], At(r'.buffers, j))
    {
      assert AgreeAt(p.slots[j], r.slots[j], At(r.buffers, j));
    }
  }

  /** The same patience for every event. */
  ghost function Always(patience: nat): nat -> nat {
    _ => patience
  }

  lemma NextReplay<T>(slots: seq<Slot<T>>, buffers: Buffers<T>, events: seq<IpcSelectEvent>, n: nat, patience: nat)
    requires |events| == n + 1 && ReplayEvents(slots, buffers, events[..n], Always(patience)).error.None?
    ensures ReplayEvents(slots, buffers, events, Always(patience)) ==
            ReplayEvent(ReplayEvents(slots, buffers, events[..n], Always(patience)), events[n], patience)
  {
  }

  lemma LastEvent<T>(p: Progress<T>, i: nat)
    requires Ready(p.slots, i)
    ensures var q := Reported(p, i);
            var events := EventsOf(q.entries);
            && |q.entries| == |p.entries| + 1 && |events| == |p.entries| + 1
            && events[..|p.entries|] == EventsOf(p.entries) && events[|p.entries|] == EventOf(q.entries[|p.entries|])
  {
  }

  /**
   Batch replay: whatever batch the real set reports, replay of its log against any re-interleaving of the
   same messages gives the same batch, indices, senders, payloads and closings in the same order, and leaves
   the same future. It meets no error, so that none of the mismatches of a batch can come up.
   */
  lemma {:induction false} BatchReplays<T>(actual: seq<Slot<T>>, slots: seq<Slot<T>>, buffers: Buffers<T>,
      order: seq<nat>, patience: nat)
    requires Agree(actual, slots, buffers) && Patient(slots, patience)
    ensures var p := RealSelect(actual, map[], order);
            var r := ReplayEvents(slots, buffers, EventsOf(p.entries), Always(patience));
            && r.error.None? && r.entries == p.entries
            && Agree(p.slots, r.slots, r.buffers) && Patient(r.slots, patience)
    decreases |order|
  {
    if order != [] {
      var n := |order| - 1;
      BatchReplays(actual, slots, buffers, order[..n], patience);
      var p := RealSelect(actual, map[], order[..n]);
      var r := ReplayEvents(slots, buffers, EventsOf(p.entries), Always(patience));
      if Ready(p.slots, order[n]) {
        ReportReplays(p, r, order[n], patience);
        LastEvent(p, order[n]);
        NextReplay(slots, buffers, EventsOf(Reported(p, order[n]).entries), |p.entries|, patience);
      }
    }
  }

  // ---- A whole run of a set ----

  /** What the program does with its set. The two slots of an addition are the receiver in record and in replay. */
  datatype Step<T> = Adding(recorded: Slot<T>, replayed: Slot<T>) | Selecting(order: seq<nat>)

  datatype StepResult<T> = AddedAt(index: nat) | SelectedAs(entries: seq<Selection<T>>)

  datatype SetRun<T> = SetRun(results: seq<StepResult<T>>, log: seq<TivoEvent>, slots: seq<Slot<T>>)

  /** A record run: the results and what is logged. */
  function RecordSteps<T>(actual: seq<Slot<T>>, steps: seq<Step<T>>): SetRun<T>
    decreases |steps|
  {
    if steps == [] then SetRun([], [], actual)
    else match steps[0]
      case Adding(slot, _) =>
        var rest := RecordSteps(actual + [slot], steps[1..]);
        SetRun([AddedAt(|actual|)] + rest.results, [IpcSelectAdd(|actual|)] + rest.log, rest.slots)
      case Selecting(order) =>
        var p := RealSelect(actual, map[], order);
        var rest := RecordSteps(p.slots, steps[1..]);
        SetRun([SelectedAs(p.entries)] + rest.results, [IpcSelectBatch(EventsOf(p.entries))] + rest.log, rest.slots)
  }

  /** A replay of the same steps from a log; it ends at the first mismatch or error. */
  ghost function ReplaySteps<T>(slots: seq<Slot<T>>, buffers: Buffers<T>, steps: seq<Step<T>>, log: seq<TivoEvent>,
      patience: nat)
    : seq<StepResult<T>>
    decreases |steps|
  {
    if steps == [] || log == [] then []
    else match steps[0]
      case Adding(_, slot) =>
        if log[0] != IpcSelectAdd(|slots|) then []
        else [AddedAt(|slots|)] + ReplaySteps(slots + [slot], buffers, steps[1..], log[1..], patience)
      case Selecting(_) =>
        if !log[0].IpcSelectBatch? then []
        else
          var r := ReplayEvents(slots, buffers, log[0].events, Always(patience));
          if r.error.Some? then []
          else [SelectedAs(r.entries)] + ReplaySteps(r.slots, r.buffers, steps[1..], log[1..], patience)
  }

  /** The receivers added in replay are those added in record, with their messages in any interleaving. */
  ghost predicate SameReceivers<T>(steps: seq<Step<T>>, patience: nat) {
    forall k | 0 <= k < |steps| && steps[k].Adding? ::
      AgreeAt(steps[k].recorded, steps[k].replayed, map[]) && patience > |steps[k].replayed.wire|
  }

  /**
   Over a whole run of additions and selects, replay gives the results of the record run: the same indices and
   the same batches.
   */
  lemma {:induction false} RunReplays<T>(actual: seq<Slot<T>>, slots: seq<Slot<T>>, buffers: Buffers<T>,
      steps: seq<Step<T>>, patience: nat)
    requires Agree(actual, slots, buffers) && Patient(slots, patience) && SameReceivers(steps, patience)
    requires forall i | i in buffers :: i < |slots|
    ensures var run := RecordSteps(actual, steps);
            ReplaySteps(slots, buffers, steps, run.log, patience) == run.results
    decreases |steps|
  {
    if steps != [] {
      var run := RecordSteps(actual, steps);
      match steps[0] {
        case Adding(recorded, replayed) =>
          forall i: nat | i <= |actual|
            ensures AgreeAt((actual + [recorded])[i], (slots + [replayed])[i], At(buffers, i))
          {
            if i < |actual| {
              assert AgreeAt(actual[i], slots[i], At(buffers, i));
            }
          }
          RunReplays(actual + [recorded], slots + [replayed], buffers, steps[1..], patience);
          assert run.log[1..] == RecordSteps(actual + [recorded], steps[1..]).log;
        case Selecting(order) =>
          BatchReplays(actual, slots, buffers, order, patience);
          var p := RealSelect(actual, map[], order);
          var r := ReplayEvents(slots, buffers, EventsOf(p.entries), Always(patience));
          BuffersStayInRange(slots, buffers, EventsOf(p.entries), Always(patience));
          RunReplays(p.slots, r.slots, r.buffers, steps[1..], patience);
          assert run.log[1..] == RecordSteps(p.slots, steps[1..]).log;
      }
    }
  }

  lemma {:induction false} BuffersStayInRange<T>(slots: seq<Slot<T>>, buffers: Buffers<T>,
      events: seq<IpcSelectEvent>, patience: nat -> nat)
    requires forall i | i in buffers :: i < |slots|
    ensures var p := ReplayEvents(slots, buffers, events, patience);
            |p.slots| == |slots| && forall i | i in p.buffers :: i < |slots|
    decreases |events|
  {
    if events != [] {
      BuffersStayInRange(slots, buffers, events[..|events| - 1], patience);
    }
  }

  // ---- Closings ----

  function ClosedFlag<T>(slots: seq<Slot<T>>, i: nat): nat {
    if i < |slots| && slots[i].closed then 1 else 0
  }

  /** The real set reports a closing once: just when it marks the receiver. */
  lemma {:induction false} RealClosings<T>(slots: seq<Slot<T>>, buffers: Buffers<T>, order: seq<nat>, i: nat)
    ensures var p := RealSelect(slots, buffers, order);
            && |p.slots| == |slots|
            && ClosedFlag(slots, i) + Closings(p.entries, i) == ClosedFlag(p.slots, i)
    decreases |order|
  {
    if order != [] {
      var n := |order| - 1;
      RealClosings(slots, buffers, order[..n], i);
      var p := RealSelect(slots, buffers, order[..n]);
      if Ready(p.slots, order[n]) {
        var e := Reported(p, order[n]).entries[|p.entries|];
        ClosingsAppend(p.entries, [e], i);
        assert Closings([e], i) == if e == Closing(i) then 1 else 0;
      }
    }
  }

  /** The batch closes receivers that are open, each once. Logs that come from a record run do. */
  ghost predicate ClosesOpen<T>(slots: seq<Slot<T>>, events: seq<IpcSelectEvent>) {
    forall k | 0 <= k < |events| && events[k].ChannelClosed? ::
      && (events[k].index < |slots| ==> !slots[events[k].index].closed)
      && events[k] !in events[..k]
  }

  lemma EventClosings<T>(p: Progress<T>, event: IpcSelectEvent, patience: nat, i: nat)
    requires p.error.None? && p.entries == []
    requires event.ChannelClosed? && event.index < |p.slots| ==> !p.slots[event.index].closed
    ensures var q := ReplayEvent(p, event, patience);
            && |q.slots| == |p.slots|
            && ClosedFlag(p.slots, i) <= ClosedFlag(q.slots, i)
            && (q.error.None? ==> ClosedFlag(p.slots, i) + Closings(q.entries, i) == ClosedFlag(q.slots, i))
            && (q.error.None? && ClosedFlag(q.slots, i) > ClosedFlag(p.slots, i) ==> event == ChannelClosed(i))
  {
    var q := ReplayEvent(p, event, patience);
    if q.error.None? {
      assert q.entries[1..] == [];
    }
  }

  lemma ClosesOpenPrefix<T>(slots: seq<Slot<T>>, events: seq<IpcSelectEvent>, n: nat)
    requires ClosesOpen(slots, events) && n <= |events|
    ensures ClosesOpen(slots, events[..n])
  {
    forall k | 0 <= k < n && events[..n][k].ChannelClosed?
      ensures events[..n][k] !in events[..n][..k]
    {
      assert events[..n][..k] == events[..k];
    }
  }

  /** Index `i` is marked just when its closing has been reported, and the events have it. */
  ghost predicate ClosingsCounted<T>(slots: seq<Slot<T>>, p: Progress<T>, events: seq<IpcSelectEvent>, i: nat) {
    && ClosedFlag(slots, i) <= ClosedFlag(p.slots, i)
    && (p.error.None? ==> ClosedFlag(slots, i) + Closings(p.entries, i) == ClosedFlag(p.slots, i))
    && (p.error.None? && ClosedFlag(p.slots, i) > ClosedFlag(slots, i) ==> ChannelClosed(i) in events)
  }

  lemma ClosingsStep<T>(slots: seq<Slot<T>>, p: Progress<T>, events: seq<IpcSelectEvent>, event: IpcSelectEvent,
      patience: nat, i: nat)
    requires p.error.None? && ClosingsCounted(slots, p, events, i)
    requires event.ChannelClosed? && event.index < |p.slots| ==> !p.slots[event.index].closed
    ensures ClosingsCounted(slots, ReplayEvent(p, event, patience), events + [event], i)
    ensures |ReplayEvent(p, event, patience).slots| == |p.slots|
  {
    var start := p.(entries := []);
    EventClosings(start, event, patience, i);
    EventAddsEntries(p, event, patience);
    ClosingsAppend(p.entries, ReplayEvent(start, event, patience).entries, i);
  }

  lemma SplitLast<A>(s: seq<A>)
    requires s != []
    ensures s[..|s| - 1] + [s[|s| - 1]] == s
  {
  }

  lemma StillOpen<T>(slots: seq<Slot<T>>, p: Progress<T>, events: seq<IpcSelectEvent>, n: nat)
    requires ClosesOpen(slots, events) && n < |events| && p.error.None? && |p.slots| == |slots|
    requires ClosingsCounted(slots, p, events[..n], events[n].index)
    ensures events[n].ChannelClosed? && events[n].index < |p.slots| ==> !p.slots[events[n].index].closed
  {
  }

  /** In replay a closing is reported just when the receiver is marked, if the log closes open receivers only. */
  lemma {:induction false} ReplayClosings<T>(slots: seq<Slot<T>>, buffers: Buffers<T>, events: seq<IpcSelectEvent>,
      patience: nat -> nat, i: nat)
    requires ClosesOpen(slots, events)
    ensures var p := ReplayEvents(slots, buffers, events, patience);
            |p.slots| == |slots| && ClosingsCounted(slots, p, events, i)
    decreases |events|
  {
    if events != [] {
      var n := |events| - 1;
      ClosesOpenPrefix(slots, events, n);
      ReplayClosings(slots, buffers, events[..n], patience, i);
      ReplayClosings(slots, buffers, events[..n], patience, events[n].index);
      var p := ReplayEvents(slots, buffers, events[..n], patience);
      if p.error.None? {
        StillOpen(slots, p, events, n);
        ClosingsStep(slots, p, events[..n], events[n], patience(n), i);
        SplitLast(events);
      }
    }
  }

  /** Entries found in a batch count. */
  lemma {:induction false} ClosingCounts<T>(entries: seq<Selection<T>>, k: nat, i: nat)
    requires k < |entries| && entries[k] == Closing(i)
    ensures Closings(entries, i) >= 1 + Closings(entries[..k], i)
  {
    ClosingsAppend(entries[..k], entries[k..], i);
    assert entries == entries[..k] + entries[k..];
  }

  /**
   What the real set reports closes open receivers, each once, so that the log of it does, too, for every set with the
   same or fewer closed receivers, whatever is on its wires.
   */
  lemma RecordedClosesOpen<T>(actual: seq<Slot<T>>, slots: seq<Slot<T>>, order: seq<nat>)
    requires |slots| == |actual| && forall i: nat | i < |slots| && slots[i].closed :: actual[i].closed
    ensures ClosesOpen(slots, EventsOf(RealSelect(actual, map[], order).entries))
  {
    var entries := RealSelect(actual, map[], order).entries;
    var events := EventsOf(entries);
    forall k | 0 <= k < |events| && events[k].ChannelClosed?
      ensures (events[k].index < |slots| ==> !slots[events[k].index].closed) && events[k] !in events[..k]
    {
      var i := events[k].index;
      RealClosings(actual, map[], order, i);
      ClosingCounts(entries, k, i);
      if events[k] in events[..k] {
        var j :| 0 <= j < k && events[j] == events[k];
        assert entries[..k][j] == Closing(i);
        ClosingCounts(entries[..k], j, i);
        assert false;
      }
    }
  }

  // ---- Closings over a whole run ----

  /** How often a batch of the log closes the index. */
  function BatchClosings(events: seq<IpcSelectEvent>, i: nat): nat {
    if events == [] then 0 else (if events[0] == ChannelClosed(i) then 1 else 0) + BatchClosings(events[1..], i)
  }

  /** How often the log does. */
  function LogClosings(log: seq<TivoEvent>, i: nat): nat {
    if log == [] then 0
    else (if log[0].IpcSelectBatch? then BatchClosings(log[0].events, i) else 0) + LogClosings(log[1..], i)
  }

  /** The log does not close a receiver that is closed, nor any receiver twice. */
  ghost predicate ClosesEachOnce<T>(slots: seq<Slot<T>>, log: seq<TivoEvent>) {
    forall i :: ClosedFlag(slots, i) + LogClosings(log, i) <= 1
  }

  lemma {:induction false} BatchClosingsLogged<T>(entries: seq<Selection<T>>, i: nat)
    ensures BatchClosings(EventsOf(entries), i) == Closings(entries, i)
  {
    if entries != [] {
      assert EventsOf(entries)[1..] == EventsOf(entries[1..]);
      BatchClosingsLogged(entries[1..], i);
    }
  }

  lemma {:induction false} BatchClosingsAppend(a: seq<IpcSelectEvent>, b: seq<IpcSelectEvent>, i: nat)
    ensures BatchClosings(a + b, i) == BatchClosings(a, i) + BatchClosings(b, i)
  {
    if a == [] {
      assert a + b == b;
    } else {
      assert (a + b)[0] == a[0] && (a + b)[1..] == a[1..] + b;
      BatchClosingsAppend(a[1..], b, i);
    }
  }

  /** Over a whole record run of a set, the log closes each receiver at most once. */
  lemma {:induction false} RunClosesOnce<T>(actual: seq<Slot<T>>, steps: seq<Step<T>>, i: nat)
    ensures var run := RecordSteps(actual, steps);
            ClosedFlag(actual, i) + LogClosings(run.log, i) <= ClosedFlag(run.slots, i)
    decreases |steps|
  {
    if steps != [] {
      var run := RecordSteps(actual, steps);
      match steps[0] {
        case Adding(recorded, _) =>
          RunClosesOnce(actual + [recorded], steps[1..], i);
          assert run.log[1..] == RecordSteps(actual + [recorded], steps[1..]).log;
        case Selecting(order) =>
          var p := RealSelect(actual, map[], order);
          RealClosings(actual, map[], order, i);
          BatchClosingsLogged(p.entries, i);
          RunClosesOnce(p.slots, steps[1..], i);
          assert run.log[1..] == RecordSteps(p.slots, steps[1..]).log;
      }
    }
  }

  /** An event found in a batch counts. */
  lemma BatchClosingCounts(events: seq<IpcSelectEvent>, k: nat, i: nat)
    requires k < |events| && events[k] == ChannelClosed(i)
    ensures BatchClosings(events, i) >= 1 + BatchClosings(events[..k], i)
  {
    BatchClosingsAppend(events[..k], events[k..], i);
    assert events == events[..k] + events[k..];
  }

  /** So the next batch of such a log closes open receivers only, */
  lemma NextClosesOpen<T>(slots: seq<Slot<T>>, log: seq<TivoEvent>)
    requires ClosesEachOnce(slots, log) && log != [] && log[0].IpcSelectBatch?
    ensures ClosesOpen(slots, log[0].events)
  {
    var events := log[0].events;
    forall k | 0 <= k < |events| && events[k].ChannelClosed?
      ensures (events[k].index < |slots| ==> !slots[events[k].index].closed) && events[k] !in events[..k]
    {
      var i := events[k].index;
      BatchClosingCounts(events, k, i);
      assert ClosedFlag(slots, i) + LogClosings(log, i) <= 1;
      if events[k] in events[..k] {
        var j :| 0 <= j < k && events[j] == events[k];
        BatchClosingCounts(events[..k], j, i);
        assert false;
      }
    }
  }

  /** and when it has been replayed without an error, the rest of the log is again one for the receivers as they are. */
  lemma ReplayedClosesOnce<T>(slots: seq<Slot<T>>, buffers: Buffers<T>, log: seq<TivoEvent>, patience: nat -> nat)
    requires ClosesEachOnce(slots, log) && log != [] && log[0].IpcSelectBatch?
    requires ReplayEvents(slots, buffers, log[0].events, patience).error.None?
    ensures ClosesEachOnce(ReplayEvents(slots, buffers, log[0].events, patience).slots, log[1..])
  {
    var events := log[0].events;
    var p := ReplayEvents(slots, buffers, events, patience);
    NextClosesOpen(slots, log);
    forall i: nat
      ensures ClosedFlag(p.slots, i) + LogClosings(log[1..], i) <= 1
    {
      ReplayClosings(slots, buffers, events, patience, i);
      assert ClosedFlag(slots, i) + LogClosings(log, i) <= 1;
      if ChannelClosed(i) in events {
        var k :| 0 <= k < |events| && events[k] == ChannelClosed(i);
        BatchClosingCounts(events, k, i);
      }
    }
  }
}
