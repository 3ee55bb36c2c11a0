/**
 Why `InTurn` is needed: a thread that receives from a channel while it has a select open, which has chosen a message
 of that channel, gets the next message, and then the chosen one. What it has received is out of order.
 */
module OutOfTurn {
  import opened Confluence
  import opened Following
  import opened Identities
  import opened Promises
  import opened Protocol
  import opened Recording
  import opened RecordLog
  import opened ReplayEngine
  import opened SplitSelects
  import opened Values

  /** One thread: it makes a channel, sends itself two messages, selects, receives, and completes its select. */
  function ReceivesBetween(t: Path, arg: Payload, history: seq<Outcome>): Op {
    if |history| == 0 then NewChannel(CbUnbounded)
    else if |history| == 1 then Send(OWN, [1], {})
    else if |history| == 2 then Send(OWN, [2], {})
    else if |history| == 3 then SelectOp([OWN])
    else if |history| == 4 then Recv(OWN, Blocking)
    else if |history| == 5 then Complete(0, OWN)
    else Exit
  }

  const RECEIVING := RecordEntry(CrossbeamRecvSucc([]), CbUnbounded, DetChannelId([], 1))
  const ONE := DetMessage([], Message([1], 1))
  const TWO := DetMessage([], Message([2], 2))
  const RECEIVED := Outcome(RECEIVING, [[2]])
  const COMPLETED := Outcome(SELECTING, [[1]])
  const QUEUE := QueueId(DetChannelId([], 1), [])

  function At1(): Recorder {
    OneThread([CREATED], [], 1, map[], [CREATION])
  }

  function At2(): Recorder {
    OneThread([CREATED, SENT], [], 2, map[OWN.id := [ONE]], [CREATION, SENDING])
  }

  function At3(): Recorder {
    OneThread([CREATED, SENT, SENT], [], 3, map[OWN.id := [ONE, TWO]], [CREATION, SENDING, SENDING])
  }

  function At4(): Recorder {
    OneThread([CREATED, SENT, SENT, Chosen(0)], [SELECTING], 4, map[OWN.id := [ONE, TWO]], [CREATION, SENDING, SENDING])
  }

  function At5(): Recorder {
    OneThread([CREATED, SENT, SENT, Chosen(0), RECEIVED], [SELECTING], 5, map[OWN.id := [ONE]],
              [CREATION, SENDING, SENDING, RECEIVING])
  }

  function At6(): Recorder {
    OneThread([CREATED, SENT, SENT, Chosen(0), RECEIVED, COMPLETED], [], 5, map[OWN.id := []],
              [CREATION, SENDING, SENDING, RECEIVING, SELECTING])
  }

  lemma Step1()
    ensures Recordings(ReceivesBetween)(Start([]), Wrote([], CREATION)) == Some(At1())
  {
    assert CanRecord(ReceivesBetween, Start([]), [], CREATION);
    Alone(ReceivesBetween, Start([]), CREATION, NewThread([]), []);
    NothingPaid();
    NothingAdded([CREATED]);
    NothingAdded([CREATION]);
    var R := Record(ReceivesBetween, Start([]), [], CREATION);
    assert R.wires == map[] && R.home == map[OWN.id := Held([])];
  }

  lemma FirstArrives()
    requires CanRecord(ReceivesBetween, At1(), [], SENDING)
    ensures Record(ReceivesBetween, At1(), [], SENDING).wires == At2().wires
    ensures Record(ReceivesBetween, At1(), [], SENDING).home == At2().home
  {
    NothingAdded([ONE]);
    assert OpOf(ReceivesBetween, [], At1().threads[[]]) == Send(OWN, [1], {});
  }

  lemma Step2()
    ensures Recordings(ReceivesBetween)(At1(), Wrote([], SENDING)) == Some(At2())
  {
    assert OpOf(ReceivesBetween, [], At1().threads[[]]) == Send(OWN, [1], {});
    assert CanRecord(ReceivesBetween, At1(), [], SENDING);
    Alone(ReceivesBetween, At1(), SENDING, At1().threads[[]], [CREATION]);
    NothingPaid();
    assert [CREATED] + [SENT] == [CREATED, SENT] && [CREATION] + [SENDING] == [CREATION, SENDING];
    FirstArrives();
  }

  lemma SecondArrives()
    requires CanRecord(ReceivesBetween, At2(), [], SENDING)
    ensures Record(ReceivesBetween, At2(), [], SENDING).wires == At3().wires
    ensures Record(ReceivesBetween, At2(), [], SENDING).home == At3().home
  {
    assert [ONE] + [TWO] == [ONE, TWO];
    assert OpOf(ReceivesBetween, [], At2().threads[[]]) == Send(OWN, [2], {});
  }

  lemma Step3()
    ensures Recordings(ReceivesBetween)(At2(), Wrote([], SENDING)) == Some(At3())
  {
    assert OpOf(ReceivesBetween, [], At2().threads[[]]) == Send(OWN, [2], {});
    assert CanRecord(ReceivesBetween, At2(), [], SENDING);
    Alone(ReceivesBetween, At2(), SENDING, At2().threads[[]], [CREATION, SENDING]);
    NothingPaid();
    assert [CREATED, SENT] + [SENT] == [CREATED, SENT, SENT];
    assert [CREATION, SENDING] + [SENDING] == [CREATION, SENDING, SENDING];
    SecondArrives();
  }

  lemma MayPick()
    ensures OpOf(ReceivesBetween, [], At3().threads[[]]) == SelectOp([OWN])
    ensures CanRecord(ReceivesBetween, At3(), [], SELECTING)
  {
    var th := At3().threads[[]];
    assert Picks(SelectOp([OWN]), [], th, SELECTING) == [];
    assert Polls(SelectOp([OWN]), [], th, SELECTING) == [QUEUE];
    assert InOrder(At3().wires, [], [QUEUE]);
  }

  lemma PickLeaves()
    requires CanRecord(ReceivesBetween, At3(), [], SELECTING)
    ensures Record(ReceivesBetween, At3(), [], SELECTING).wires == At3().wires
    ensures Record(ReceivesBetween, At3(), [], SELECTING).home == At3().home
  {
    assert Picks(SelectOp([OWN]), [], At3().threads[[]], SELECTING) == [];
  }

  lemma Step4()
    ensures Recordings(ReceivesBetween)(At3(), Picked([], SELECTING)) == Some(At4())
  {
    MayPick();
    Alone(ReceivesBetween, At3(), SELECTING, At3().threads[[]], [CREATION, SENDING, SENDING]);
    NothingAdded([SELECTING]);
    assert [CREATED, SENT, SENT] + [Chosen(0)] == [CREATED, SENT, SENT, Chosen(0)];
    PickLeaves();
  }

  /** The receive passes the message that the select has chosen by. */
  lemma SecondIsRead()
    ensures InOrder(At4().wires, [SELECTING], [QUEUE])
    ensures Read(At4().wires, [SELECTING], [QUEUE]) == [TWO.value]
    ensures Unread(At4().wires, [SELECTING], [QUEUE]) == At5().wires
  {
    assert ReservedOn([SELECTING], OWN.id) == 1 + ReservedOn([SELECTING][1..], OWN.id);
    assert Without([ONE, TWO], 1) == [ONE];
    assert [QUEUE][1..] == [];
  }

  lemma MayReceive()
    ensures OpOf(ReceivesBetween, [], At4().threads[[]]) == Recv(OWN, Blocking)
    ensures Picks(Recv(OWN, Blocking), [], At4().threads[[]], RECEIVING) == [QUEUE]
    ensures Ahead(Recv(OWN, Blocking), At4().threads[[]]) == [SELECTING]
    ensures CanRecord(ReceivesBetween, At4(), [], RECEIVING)
  {
    SecondIsRead();
    assert RECEIVING.event == SuccEvent(CbUnbounded, Blocking, []);
  }

  lemma NothingDelivered(home: Home, picks: seq<QueueId>, ms: seq<Message>)
    requires |picks| == |ms| && forall c | c in home :: home[c].Held?
    ensures Rehome(home, Delivered(home, picks, ms), Held([])) == home
  {
    assert Delivered(home, picks, ms) == {};
  }

  lemma Step5()
    ensures Recordings(ReceivesBetween)(At4(), Wrote([], RECEIVING)) == Some(At5())
  {
    MayReceive();
    SecondIsRead();
    Alone(ReceivesBetween, At4(), RECEIVING, At4().threads[[]], [CREATION, SENDING, SENDING]);
    assert Payloads([TWO.value]) == [[2]];
    assert [CREATED, SENT, SENT, Chosen(0)] + [RECEIVED] == [CREATED, SENT, SENT, Chosen(0), RECEIVED];
    assert [CREATION, SENDING, SENDING] + [RECEIVING] == [CREATION, SENDING, SENDING, RECEIVING];
    NothingDelivered(At4().home, [QUEUE], [TWO.value]);
  }

  lemma FirstIsRead()
    ensures InOrder(At5().wires, [], [QUEUE])
    ensures Read(At5().wires, [], [QUEUE]) == [ONE.value]
    ensures Unread(At5().wires, [], [QUEUE]) == At6().wires
  {
    assert Without([ONE], 0) == [];
    assert [QUEUE][1..] == [];
  }

  lemma MayComplete()
    ensures OpOf(ReceivesBetween, [], At5().threads[[]]) == Complete(0, OWN)
    ensures Picks(Complete(0, OWN), [], At5().threads[[]], SELECTING) == [QUEUE]
    ensures Ahead(Complete(0, OWN), At5().threads[[]]) == []
    ensures CanRecord(ReceivesBetween, At5(), [], SELECTING)
  {
    FirstIsRead();
  }

  lemma FirstLeaves()
    requires CanRecord(ReceivesBetween, At5(), [], SELECTING)
    ensures Record(ReceivesBetween, At5(), [], SELECTING).wires == At6().wires
    ensures Record(ReceivesBetween, At5(), [], SELECTING).home == At6().home
  {
    MayComplete();
    FirstIsRead();
    NothingDelivered(At5().home, [QUEUE], [ONE.value]);
  }

  lemma Step6()
    ensures Recordings(ReceivesBetween)(At5(), Completed([], SELECTING)) == Some(At6())
  {
    MayComplete();
    FirstIsRead();
    Alone(ReceivesBetween, At5(), SELECTING, At5().threads[[]], [CREATION, SENDING, SENDING, RECEIVING]);
    assert Payloads([ONE.value]) == [[1]];
    assert [CREATED, SENT, SENT, Chosen(0), RECEIVED] + [COMPLETED] ==
           [CREATED, SENT, SENT, Chosen(0), RECEIVED, COMPLETED];
    assert [CREATION, SENDING, SENDING, RECEIVING] + [SELECTING] == [CREATION, SENDING, SENDING, RECEIVING, SELECTING];
    assert Without([SELECTING], 0) == [];
    FirstLeaves();
  }

  /** What a run of the program from a state on receives and sends, and whether all its receives are in turn. */
  ghost predicate Gives(R: Recorder, steps: seq<Logged>, received: seq<Payload>, sent: seq<Payload>, inTurn: bool) {
    && Runs(Recordings(ReceivesBetween), R, steps)
    && AllReceived(RecordDeeds(ReceivesBetween, R, steps), QUEUE) == received
    && AllSent(RecordDeeds(ReceivesBetween, R, steps), QUEUE) == sent
    && InTurn(ReceivesBetween, R, steps) == inTurn
  }

  /** What a step gives. */
  ghost predicate Does(R: Recorder, R': Recorder, received: seq<Payload>, sent: seq<Payload>, inTurn: bool) {
    && [] in R.threads
    && AtTheFront(OpOf(ReceivesBetween, [], R.threads[[]]), R.threads[[]]) == inTurn
    && var deeds := DeedOf(ReceivesBetween, R.threads, R'.threads, []);
    && |deeds| == 1
    && ReceivedBy(deeds[0], QUEUE) == received && SentBy(deeds[0], QUEUE) == sent
  }

  /** One step at the head of a run. */
  lemma Tell(R: Recorder, R': Recorder, l: Logged, rest: seq<Logged>, r: seq<Payload>, s: seq<Payload>, now: bool,
      received: seq<Payload>, sent: seq<Payload>, inTurn: bool)
    requires l.thread == [] && Recordings(ReceivesBetween)(R, l) == Some(R') && Does(R, R', r, s, now)
    requires Gives(R', rest, received, sent, inTurn)
    ensures Gives(R, [l] + rest, r + received, s + sent, now && inTurn)
  {
    var step := Recordings(ReceivesBetween);
    RunFirst(step, R, R', l, rest);
    assert ([l] + rest)[1..] == rest;
    var deeds := DeedOf(ReceivesBetween, R.threads, R'.threads, []);
    assert deeds == [deeds[0]];
    FirstDeed(deeds[0], RecordDeeds(ReceivesBetween, R', rest), QUEUE);
  }

  lemma Does1()
    ensures Does(Start([]), At1(), [], [], true)
  {
  }

  lemma Does2()
    ensures Does(At1(), At2(), [], [[1]], true)
  {
  }

  lemma Does3()
    ensures Does(At2(), At3(), [], [[2]], true)
  {
  }

  lemma Does4()
    ensures Does(At3(), At4(), [], [], true)
  {
  }

  /** The receive, while the select is open, gets the second message, */
  lemma Does5()
    ensures Does(At4(), At5(), [[2]], [], false)
  {
  }

  /** and the completion the first. */
  lemma Does6()
    ensures Does(At5(), At6(), [[1]], [], true)
  {
  }

  const LAST := [Completed([], SELECTING)] + []
  const LAST_TWO := [Wrote([], RECEIVING)] + LAST
  const LAST_THREE := [Picked([], SELECTING)] + LAST_TWO
  const LAST_FOUR := [Wrote([], SENDING)] + LAST_THREE
  const LAST_FIVE := [Wrote([], SENDING)] + LAST_FOUR
  const WHOLE := [Wrote([], CREATION)] + LAST_FIVE

  lemma Both(a: Payload, b: Payload)
    ensures [a] + [b] == [a, b] && [] + [a] == [a]
    ensures var nothing: seq<Payload> := []; nothing + [] == []
  {
  }

  lemma LastOne(R5: Recorder, R6: Recorder)
    requires Recordings(ReceivesBetween)(R5, Completed([], SELECTING)) == Some(R6) && Does(R5, R6, [[1]], [], true)
    ensures Gives(R5, LAST, [[1]], [], true)
  {
    NothingAdded([[1]]);
    Tell(R5, R6, Completed([], SELECTING), [], [[1]], [], true, [], [], true);
  }

  lemma LastTwo(R4: Recorder, R5: Recorder)
    requires Recordings(ReceivesBetween)(R4, Wrote([], RECEIVING)) == Some(R5) && Does(R4, R5, [[2]], [], false)
    requires Gives(R5, LAST, [[1]], [], true)
    ensures Gives(R4, LAST_TWO, [[2], [1]], [], false)
  {
    Tell(R4, R5, Wrote([], RECEIVING), LAST, [[2]], [], false, [[1]], [], true);
    Both([2], [1]);
  }

  lemma LastFour(R2: Recorder, R3: Recorder, R4: Recorder)
    requires Recordings(ReceivesBetween)(R2, Wrote([], SENDING)) == Some(R3) && Does(R2, R3, [], [[2]], true)
    requires Recordings(ReceivesBetween)(R3, Picked([], SELECTING)) == Some(R4) && Does(R3, R4, [], [], true)
    requires Gives(R4, LAST_TWO, [[2], [1]], [], false)
    ensures Gives(R2, LAST_FOUR, [[2], [1]], [[2]], false)
  {
    NothingAdded([[2], [1]]);
    NothingAdded([[2]]);
    Tell(R3, R4, Picked([], SELECTING), LAST_TWO, [], [], true, [[2], [1]], [], false);
    Tell(R2, R3, Wrote([], SENDING), LAST_THREE, [], [[2]], true, [[2], [1]], [], false);
  }

  lemma LastFive(R1: Recorder, R2: Recorder)
    requires Recordings(ReceivesBetween)(R1, Wrote([], SENDING)) == Some(R2) && Does(R1, R2, [], [[1]], true)
    requires Gives(R2, LAST_FOUR, [[2], [1]], [[2]], false)
    ensures Gives(R1, LAST_FIVE, [[2], [1]], [[1], [2]], false)
  {
    NothingAdded([[2], [1]]);
    Tell(R1, R2, Wrote([], SENDING), LAST_FOUR, [], [[1]], true, [[2], [1]], [[2]], false);
    Both([1], [2]);
  }

  lemma AllSix(R0: Recorder, R1: Recorder)
    requires Recordings(ReceivesBetween)(R0, Wrote([], CREATION)) == Some(R1) && Does(R0, R1, [], [], true)
    requires Gives(R1, LAST_FIVE, [[2], [1]], [[1], [2]], false)
    ensures Gives(R0, WHOLE, [[2], [1]], [[1], [2]], false)
  {
    NothingAdded([[2], [1]]);
    NothingAdded([[1], [2]]);
    Tell(R0, R1, Wrote([], CREATION), LAST_FIVE, [], [], true, [[2], [1]], [[1], [2]], false);
  }

  /** A record run of the program: what was sent first is received last. */
  lemma ReceivedOutOfOrder()
    ensures Recorded(ReceivesBetween, [], WHOLE)
    ensures !InTurn(ReceivesBetween, Start([]), WHOLE)
    ensures AllSent(RecordDeeds(ReceivesBetween, Start([]), WHOLE), QUEUE) == [[1], [2]]
    ensures AllReceived(RecordDeeds(ReceivesBetween, Start([]), WHOLE), QUEUE) == [[2], [1]]
  {
    Step5();
    Step6();
    Does5();
    Does6();
    LastOne(At5(), At6());
    LastTwo(At4(), At5());
    Step3();
    Step4();
    Does3();
    Does4();
    LastFour(At2(), At3(), At4());
    Step1();
    Step2();
    Does1();
    Does2();
    LastFive(At1(), At2());
    AllSix(Start([]), At1());
  }
}
