/**
 The router (src/ipc_channel/router.rs): a thread that forwards ipc messages to handlers. Its callers send it
 requests over one channel and wake it up over another, both under one mutex.

 The two queues carry the number of the call that sent, which the code does not have; it says what belongs
 together. A handler stands for the receiver that it was routed for.
 */
module Router {
  import opened Confluence
  import opened Identities

  datatype RouterMsg = AddRoute(handler: nat) | Shutdown

  datatype Request = Request(call: nat, msg: RouterMsg)

  /** What a select reports: the wakeup receiver has id 0, routed receivers the ids 1, 2, ... */
  datatype Event = Wakeup(call: nat) | Routed(id: nat, payload: nat) | Closed(id: nat)

  /** Where the router thread is. */
  datatype RouterPc =
    | Selecting
    | Handling(rest: seq<Event>)
    | Receiving(call: nat, rest: seq<Event>)   // woken up by that call
    | Stopped
    | Crashed

  datatype Delivery = Delivery(id: nat, handler: nat, payload: nat)

  /** The router's own state: ids `1..added` have been given to routes. */
  datatype RouterState = RouterState(pc: RouterPc, added: nat, handlers: map<nat, nat>, delivered: seq<Delivery>)

  /** Where a caller is. The mutex is held from AddSend and StopTest on. */
  datatype CallerPc =
    | AddLock(handler: nat) | AddSend(handler: nat) | AddWake(call: nat)
    | StopLock | StopTest | StopWake | StopSend(call: nat) | AwaitAck | Join
    | Returned | Panicked

  /**
   What the mutex guards (`RouterProxyComm`): the ends of the two queues and the shutdown flag. `calls` are the
   requests in the order in which they were made.
   */
  datatype Comm = Comm(shutdown: bool, calls: seq<RouterMsg>, requests: seq<Request>, wakeups: seq<nat>)

  /** `closed` are the routes that the set has reported closed. The proxy holds the senders of both queues. */
  datatype System = System(
    callers: seq<CallerPc>, mutex: Maybe<nat>, poisoned: bool, proxyAlive: bool,
    comm: Comm, closed: set<nat>, ack: bool, router: RouterState)

  datatype Action = Call(pc: CallerPc) | CallerStep(t: nat) | Select(batch: seq<Event>) | RouterStep | DropProxy

  function Start(): System {
    System([], None, false, true, Comm(false, [], [], []), {}, false, RouterState(Selecting, 0, map[], []))
  }

  // ---- The router thread ----

  /** One event of a batch. */
  function HandleEvent(r: RouterState, e: Event, rest: seq<Event>): RouterState {
    match e
    case Wakeup(call) => r.(pc := Receiving(call, rest))
    case Routed(id, payload) =>
      if id !in r.handlers then r.(pc := Crashed)
      else r.(pc := Handling(rest), delivered := r.delivered + [Delivery(id, r.handlers[id], payload)])
    case Closed(id) =>
      if id !in r.handlers then r.(pc := Crashed)
      else r.(pc := Handling(rest), handlers := r.handlers - {id})
  }

  /** The state after one event, or after the batch. */
  function Handled(r: RouterState): RouterState
    requires r.pc.Handling?
  {
    if r.pc.rest == [] then r.(pc := Selecting) else HandleEvent(r, r.pc.rest[0], r.pc.rest[1..])
  }

  /** One request; the set gives a new route the next id. */
  function HandleRequest(r: RouterState, msg: RouterMsg, rest: seq<Event>): RouterState {
    match msg
    case AddRoute(handler) => r.(pc := Handling(rest), added := r.added + 1, handlers := r.handlers[r.added + 1 := handler])
    case Shutdown => r.(pc := Stopped)
  }

  function RouterAdvance(s: System): Maybe<System> {
    match s.router.pc
    case Selecting => None
    case Handling(_) => Some(s.(router := Handled(s.router)))
    case Receiving(_, rest) =>
      var requests := s.comm.requests;
      if requests != [] then
        Some(s.(router := HandleRequest(s.router, requests[0].msg, rest), comm := s.comm.(requests := requests[1..]),
                ack := s.ack || requests[0].msg.Shutdown?))
      else if !s.proxyAlive then Some(s.(router := s.router.(pc := Crashed)))
      else None
    case Stopped => None
    case Crashed => None
  }

  /** The calls whose wakeups a batch holds. */
  function Wakers(batch: seq<Event>): seq<nat> {
    if batch == [] then []
    else (if batch[0].Wakeup? then [batch[0].call] else []) + Wakers(batch[1..])
  }

  function Closings(batch: seq<Event>): set<nat> {
    if batch == [] then {}
    else (if batch[0].Closed? then {batch[0].id} else {}) + Closings(batch[1..])
  }

  /**
   What the set may report: wakeups in order, messages and closings of routes that it has and has not reported
   closed, and nothing of a receiver after its closing. The wakeup receiver closes when the proxy has gone and
   every wakeup has been taken.
   */
  predicate Reportable(wakeups: seq<nat>, added: nat, closed: set<nat>, proxyAlive: bool, batch: seq<Event>)
    decreases |batch|
  {
    batch == [] ||
    match batch[0]
    case Wakeup(call) =>
      && wakeups != [] && wakeups[0] == call
      && Reportable(wakeups[1..], added, closed, proxyAlive, batch[1..])
    case Routed(id, _) =>
      && 1 <= id <= added && id !in closed
      && Reportable(wakeups, added, closed, proxyAlive, batch[1..])
    case Closed(id) =>
      && id <= added && id !in closed
      && (id == 0 ==> !proxyAlive && wakeups == [])
      && Reportable(wakeups, added, closed + {id}, proxyAlive, batch[1..])
  }

  // ---- The callers ----

  predicate HoldsMutex(pc: CallerPc) {
    match pc
    case AddLock(_) => false
    case StopLock => false
    case Returned => false
    case Panicked => false
    case _ => true
  }

  /** A step under the mutex. Nobody receives requests any more once the router thread has ended. */
  function UnderMutex(pc: CallerPc, comm: Comm, ack: bool, router: RouterPc): Maybe<(CallerPc, Comm)> {
    var call := |comm.calls|;
    match pc
    case AddSend(handler) =>
      if router.Stopped? || router.Crashed? then Some((Panicked, comm))
      else
        var msg := AddRoute(handler);
        Some((AddWake(call), comm.(calls := comm.calls + [msg], requests := comm.requests + [Request(call, msg)])))
    case AddWake(c) => Some((Returned, comm.(wakeups := comm.wakeups + [c])))
    case StopTest => Some(if comm.shutdown then (Returned, comm) else (StopWake, comm.(shutdown := true)))
    case StopWake => Some((StopSend(call), comm.(calls := comm.calls + [Shutdown], wakeups := comm.wakeups + [call])))
    case StopSend(c) => Some((AwaitAck, comm.(requests := comm.requests + [Request(c, Shutdown)])))
    case AwaitAck => if ack then Some((Join, comm)) else None
    case Join => if router.Stopped? then Some((Returned, comm)) else None
    case _ => None
  }

  /** Taking the lock. A mutex that a panic has poisoned panics. */
  function Locking(pc: CallerPc, poisoned: bool): Maybe<CallerPc> {
    if !pc.AddLock? && !pc.StopLock? then None
    else if poisoned then Some(Panicked)
    else Some(if pc.AddLock? then AddSend(pc.handler) else StopTest)
  }

  /** A caller's step: under the mutex, which it gives back when it returns or panics, or taking it. */
  function CallerAdvance(s: System, t: nat): Maybe<System>
    requires t < |s.callers|
  {
    var pc := s.callers[t];
    if HoldsMutex(pc) then
      match UnderMutex(pc, s.comm, s.ack, s.router.pc)
      case None => None
      case Some((pc', comm)) =>
        Some(s.(callers := s.callers[t := pc'], comm := comm,
                mutex := if HoldsMutex(pc') then s.mutex else None,
                poisoned := s.poisoned || pc'.Panicked?))
    else
      match Locking(pc, s.poisoned)
      case None => None
      case Some(pc') =>
        if s.mutex.Some? then None
        else Some(s.(callers := s.callers[t := pc'], mutex := if HoldsMutex(pc') then Some(t) else None))
  }

  predicate Done(pc: CallerPc) {
    pc.Returned? || pc.Panicked?
  }

  function Acting(): Stepper<System, Action> {
    (s: System, a: Action) =>
      match a
      case Call(pc) => if s.proxyAlive && (pc.AddLock? || pc.StopLock?) then Some(s.(callers := s.callers + [pc])) else None
      case CallerStep(t) => if t < |s.callers| then CallerAdvance(s, t) else None
      case Select(batch) =>
        if s.router.pc.Selecting? && batch != [] && Reportable(s.comm.wakeups, s.router.added, s.closed, s.proxyAlive, batch)
           && |Wakers(batch)| <= |s.comm.wakeups| then
          Some(s.(router := s.router.(pc := Handling(batch)),
                  comm := s.comm.(wakeups := s.comm.wakeups[|Wakers(batch)|..]), closed := s.closed + Closings(batch)))
        else None
      case RouterStep => RouterAdvance(s)
      // The proxy is dropped when no call on it is under way.
      case DropProxy => if forall t | 0 <= t < |s.callers| :: Done(s.callers[t]) then Some(s.(proxyAlive := false)) else None
  }

  ghost predicate Reachable(s: System) {
    exists actions :: Runs(Acting(), Start(), actions) && After(Acting(), Start(), actions) == s
  }

  // ---- The invariant ----

  /** Where the caller with the mutex is. */
  function Holder(s: System): CallerPc {
    if s.mutex.Some? && s.mutex.value < |s.callers| then s.callers[s.mutex.value] else Returned
  }

  ghost predicate MutexOk(s: System) {
    && (forall t: nat | t < |s.callers| :: HoldsMutex(s.callers[t]) <==> s.mutex == Some(t))
    && (s.mutex.Some? ==> s.mutex.value < |s.callers|)
    && (!s.proxyAlive ==> forall t: nat | t < |s.callers| :: Done(s.callers[t]))
  }

  /** What is left of the batch that the router is working on. */
  function Rest(r: RouterState): seq<Event> {
    match r.pc
    case Handling(rest) => rest
    case Receiving(_, rest) => rest
    case _ => []
  }

  /** The calls that have woken the router up and whose requests it has not received. */
  function Outstanding(r: RouterState, wakeups: seq<nat>): seq<nat> {
    (if r.pc.Receiving? then [r.pc.call] else []) + Wakers(Rest(r)) + wakeups
  }

  function CallsOf(requests: seq<Request>): seq<nat> {
    seq(|requests|, k requires 0 <= k < |requests| => requests[k].call)
  }

  /** Requests and wakeups match one to one, but for the caller that is between the two sends. */
  predicate Paired(holder: CallerPc, requests: seq<nat>, wakers: seq<nat>) {
    match holder
    case AddWake(call) => requests == wakers + [call]
    case StopSend(call) => wakers == requests + [call]
    case _ => requests == wakers
  }

  /** How many requests the router has received. */
  function Received(r: RouterState): nat {
    r.added + if r.pc.Stopped? then 1 else 0
  }

  /** The requests on the way are the calls that have not been received, but for one that is being made. */
  predicate InOrder(holder: CallerPc, calls: seq<RouterMsg>, received: nat, requests: seq<Request>) {
    && |calls| == received + |requests| + (if holder.StopSend? then 1 else 0)
    && (forall k | 0 <= k < |requests| :: requests[k] == Request(received + k, calls[received + k]))
    && (holder.AddWake? ==> holder.call == |calls| - 1)
    && (holder.StopSend? ==> holder.call == |calls| - 1 && calls[holder.call].Shutdown?)
  }

  /** The shutdown is the last call, and it is made once. */
  predicate ShutdownOk(holder: CallerPc, comm: Comm, ack: bool, router: RouterPc) {
    var shutdownCalled := comm.calls != [] && comm.calls[|comm.calls| - 1].Shutdown?;
    && (forall k | 0 <= k < |comm.calls| && comm.calls[k].Shutdown? :: k == |comm.calls| - 1)
    && (shutdownCalled <==> comm.shutdown && !holder.StopWake?)
    && (holder.StopWake? || holder.StopSend? ==> comm.shutdown)
    && (comm.shutdown ==> router.Stopped? || holder.StopWake? || holder.StopSend? || holder.AwaitAck?)
    && (holder.AwaitAck? ==> comm.shutdown)
    && (router.Stopped? ==> shutdownCalled && comm.requests == [])
    && (router.Stopped? ==> !holder.AddWake? && !holder.StopWake? && !holder.StopSend?)
    && (holder.Join? ==> ack)
  }

  /** The rest of a batch is about open routes, or the end of a proxy that was dropped. */
  predicate RestOk(open: set<nat>, proxyAlive: bool, rest: seq<Event>)
    decreases |rest|
  {
    rest == [] ||
    match rest[0]
    case Wakeup(_) => RestOk(open, proxyAlive, rest[1..])
    case Routed(id, _) => id in open && RestOk(open, proxyAlive, rest[1..])
    case Closed(id) => (id in open || (id == 0 && !proxyAlive)) && RestOk(open - {id}, proxyAlive, rest[1..])
  }

  /** The handlers are those of the routes that are open, and each is the one that came with its route. */
  ghost predicate RoutesOk(r: RouterState, closed: set<nat>, proxyAlive: bool, calls: seq<RouterMsg>) {
    && r.added <= |calls| && (forall k | 0 <= k < r.added :: calls[k].AddRoute?)
    && (forall id | id in r.handlers :: 1 <= id <= r.added && calls[id - 1] == AddRoute(r.handlers[id]))
    && (forall k | 0 <= k < |r.delivered| ::
          1 <= r.delivered[k].id <= r.added && calls[r.delivered[k].id - 1] == AddRoute(r.delivered[k].handler))
    && (r.pc.Crashed? ==> !proxyAlive)
    && (forall id | id in closed :: id <= r.added)
    && (!r.pc.Crashed? && !r.pc.Stopped? ==>
          && RestOk(r.handlers.Keys, proxyAlive, Rest(r))
          && (forall id :: id in r.handlers && id !in Closings(Rest(r)) <==> 1 <= id <= r.added && id !in closed))
  }

  predicate QueuesOk(holder: CallerPc, comm: Comm, ack: bool, r: RouterState) {
    && Paired(holder, CallsOf(comm.requests), Outstanding(r, comm.wakeups))
    && InOrder(holder, comm.calls, Received(r), comm.requests)
    && ShutdownOk(holder, comm, ack, r.pc)
  }

  ghost predicate Inv(s: System) {
    && MutexOk(s)
    && (s.ack <==> s.router.pc.Stopped?)
    && RoutesOk(s.router, s.closed, s.proxyAlive, s.comm.calls)
    && (!s.router.pc.Crashed? ==> QueuesOk(Holder(s), s.comm, s.ack, s.router))
  }

  lemma StartInv()
    ensures Inv(Start())
  {
  }

  lemma CallKeepsInv(s: System, pc: CallerPc)
    requires Inv(s) && Acting()(s, Call(pc)).Some?
    ensures Inv(Acting()(s, Call(pc)).value)
  {
    var s' := Acting()(s, Call(pc)).value;
    assert Holder(s') == Holder(s);
  }

  lemma DropKeepsInv(s: System)
    requires Inv(s) && Acting()(s, DropProxy).Some?
    ensures Inv(Acting()(s, DropProxy).value)
  {
    var s' := Acting()(s, DropProxy).value;
    assert Holder(s') == Holder(s);
    RestOkLater(s.router.handlers.Keys, Rest(s.router), s.proxyAlive);
  }

  /** More open routes, or a proxy that has gone, only allow more. */
  lemma {:induction false} RestOkLater(open: set<nat>, rest: seq<Event>, alive: bool)
    requires RestOk(open, alive, rest)
    ensures RestOk(open, false, rest)
    decreases |rest|
  {
    if rest != [] {
      RestOkLater(if rest[0].Closed? then open - {rest[0].id} else open, rest[1..], alive);
    }
  }

  lemma {:induction false} RestOkMore(open: set<nat>, more: set<nat>, rest: seq<Event>, alive: bool)
    requires RestOk(open, alive, rest) && open <= more
    ensures RestOk(more, alive, rest)
    decreases |rest|
  {
    if rest != [] {
      var id := if rest[0].Closed? then {rest[0].id} else {};
      assert open - {} == open && more - {} == more;
      RestOkMore(open - id, more - id, rest[1..], alive);
    }
  }

  // A caller's step.

  lemma CallerKeepsMutex(s: System, t: nat)
    requires MutexOk(s) && t < |s.callers| && CallerAdvance(s, t).Some?
    ensures MutexOk(CallerAdvance(s, t).value)
  {
    var s' := CallerAdvance(s, t).value;
    assert s'.callers == s.callers[t := s'.callers[t]];
    assert HoldsMutex(s.callers[t]) <==> s.mutex == Some(t);
  }

  /** The comm changes only in a step under the mutex. */
  lemma CallerHolds(s: System, t: nat)
    requires MutexOk(s) && t < |s.callers| && CallerAdvance(s, t).Some?
    ensures var s' := CallerAdvance(s, t).value;
            && s' == s.(callers := s'.callers, mutex := s'.mutex, poisoned := s'.poisoned, comm := s'.comm)
            && Holder(s') == (if HoldsMutex(s'.callers[t]) then s'.callers[t] else Returned)
            && (if HoldsMutex(s.callers[t])
                then
                  && Holder(s) == s.callers[t]
                  && UnderMutex(s.callers[t], s.comm, s.ack, s.router.pc) == Some((s'.callers[t], s'.comm))
                else
                  && Holder(s) == Returned && s'.comm == s.comm
                  && (s'.callers[t].AddSend? || s'.callers[t].StopTest? || s'.callers[t].Panicked?))
  {
    assert HoldsMutex(s.callers[t]) <==> s.mutex == Some(t);
  }

  function HolderOf(pc: CallerPc): CallerPc {
    if HoldsMutex(pc) then pc else Returned
  }

  lemma CallsOfAppend(requests: seq<Request>, r: Request)
    ensures CallsOf(requests + [r]) == CallsOf(requests) + [r.call]
  {
  }

  lemma Reassociate(r: RouterState, wakeups: seq<nat>, call: nat)
    ensures Outstanding(r, wakeups + [call]) == Outstanding(r, wakeups) + [call]
  {
  }

  lemma UnderMutexPairs(pc: CallerPc, comm: Comm, ack: bool, r: RouterState)
    requires UnderMutex(pc, comm, ack, r.pc).Some? && Paired(pc, CallsOf(comm.requests), Outstanding(r, comm.wakeups))
    ensures var (pc', comm') := UnderMutex(pc, comm, ack, r.pc).value;
            Paired(HolderOf(pc'), CallsOf(comm'.requests), Outstanding(r, comm'.wakeups))
  {
    match pc {
      case AddSend(handler) => CallsOfAppend(comm.requests, Request(|comm.calls|, AddRoute(handler)));
      case AddWake(call) => Reassociate(r, comm.wakeups, call);
      case StopWake => Reassociate(r, comm.wakeups, |comm.calls|);
      case StopSend(call) => CallsOfAppend(comm.requests, Request(call, Shutdown));
      case _ =>
    }
  }

  lemma UnderMutexOrders(pc: CallerPc, comm: Comm, ack: bool, router: RouterPc, received: nat)
    requires UnderMutex(pc, comm, ack, router).Some? && InOrder(pc, comm.calls, received, comm.requests)
    ensures var (pc', comm') := UnderMutex(pc, comm, ack, router).value;
            InOrder(HolderOf(pc'), comm'.calls, received, comm'.requests) && comm.calls <= comm'.calls
  {
  }

  lemma UnderMutexStops(pc: CallerPc, comm: Comm, ack: bool, router: RouterPc)
    requires UnderMutex(pc, comm, ack, router).Some? && !router.Crashed? && HoldsMutex(pc)
    requires ShutdownOk(pc, comm, ack, router) && (ack <==> router.Stopped?)
    ensures var (pc', comm') := UnderMutex(pc, comm, ack, router).value;
            ShutdownOk(HolderOf(pc'), comm', ack, router)
  {
    var (pc', comm') := UnderMutex(pc, comm, ack, router).value;
    assert forall k | 0 <= k < |comm.calls| :: comm'.calls[k] == comm.calls[k];
  }

  lemma RoutesOkMore(r: RouterState, closed: set<nat>, alive: bool, calls: seq<RouterMsg>, calls': seq<RouterMsg>)
    requires RoutesOk(r, closed, alive, calls) && calls <= calls'
    ensures RoutesOk(r, closed, alive, calls')
  {
    assert forall k | 0 <= k < |calls| :: calls'[k] == calls[k];
  }

  lemma CallerKeepsInv(s: System, t: nat)
    requires Inv(s) && t < |s.callers| && CallerAdvance(s, t).Some?
    ensures Inv(CallerAdvance(s, t).value)
  {
    var s' := CallerAdvance(s, t).value;
    var pc := s.callers[t];
    CallerKeepsMutex(s, t);
    CallerHolds(s, t);
    if HoldsMutex(pc) && !s.router.pc.Crashed? {
      UnderMutexPairs(pc, s.comm, s.ack, s.router);
      UnderMutexOrders(pc, s.comm, s.ack, s.router.pc, Received(s.router));
      UnderMutexStops(pc, s.comm, s.ack, s.router.pc);
      RoutesOkMore(s.router, s.closed, s.proxyAlive, s.comm.calls, s'.comm.calls);
    }
  }

  // A select.

  lemma {:induction false} ReportableIsOk(wakeups: seq<nat>, added: nat, closed: set<nat>, alive: bool,
      batch: seq<Event>, open: set<nat>)
    requires Reportable(wakeups, added, closed, alive, batch)
    requires forall id :: id in open <==> 1 <= id <= added && id !in closed
    ensures RestOk(open, alive, batch)
    ensures forall id | id in Closings(batch) :: id <= added && id !in closed
    decreases |batch|
  {
    if batch != [] {
      match batch[0] {
        case Wakeup(_) =>
          ReportableIsOk(wakeups[1..], added, closed, alive, batch[1..], open);
        case Routed(_, _) =>
          ReportableIsOk(wakeups, added, closed, alive, batch[1..], open);
        case Closed(id) =>
          ReportableIsOk(wakeups, added, closed + {id}, alive, batch[1..], open - {id});
      }
    }
  }

  lemma OneMore(wakeups: seq<nat>, wakers: seq<nat>)
    requires wakeups != [] && |wakers| <= |wakeups| - 1 && wakers + wakeups[1..][|wakers|..] == wakeups[1..]
    ensures [wakeups[0]] + wakers + wakeups[|wakers| + 1..] == wakeups
  {
    assert [wakeups[0]] + (wakers + wakeups[1..][|wakers|..]) == wakeups;
  }

  lemma {:induction false} ReportableTakesWakeups(wakeups: seq<nat>, added: nat, closed: set<nat>, alive: bool,
      batch: seq<Event>)
    requires Reportable(wakeups, added, closed, alive, batch)
    ensures |Wakers(batch)| <= |wakeups| && Wakers(batch) + wakeups[|Wakers(batch)|..] == wakeups
    decreases |batch|
  {
    if batch != [] {
      match batch[0] {
        case Wakeup(_) =>
          ReportableTakesWakeups(wakeups[1..], added, closed, alive, batch[1..]);
          OneMore(wakeups, Wakers(batch[1..]));
        case Routed(_, _) =>
          ReportableTakesWakeups(wakeups, added, closed, alive, batch[1..]);
        case Closed(id) =>
          ReportableTakesWakeups(wakeups, added, closed + {id}, alive, batch[1..]);
      }
    }
  }

  lemma SelectKeepsRoutes(s: System, batch: seq<Event>)
    requires RoutesOk(s.router, s.closed, s.proxyAlive, s.comm.calls) && Acting()(s, Select(batch)).Some?
    ensures var s' := Acting()(s, Select(batch)).value;
            RoutesOk(s'.router, s'.closed, s'.proxyAlive, s'.comm.calls)
  {
    assert Closings(Rest(s.router)) == {};
    ReportableIsOk(s.comm.wakeups, s.router.added, s.closed, s.proxyAlive, batch, s.router.handlers.Keys);
  }

  lemma SelectTakes(r: RouterState, wakeups: seq<nat>, batch: seq<Event>, added: nat, closed: set<nat>, alive: bool)
    requires r.pc.Selecting? && Reportable(wakeups, added, closed, alive, batch) && |Wakers(batch)| <= |wakeups|
    ensures Outstanding(r.(pc := Handling(batch)), wakeups[|Wakers(batch)|..]) == Outstanding(r, wakeups)
  {
    ReportableTakesWakeups(wakeups, added, closed, alive, batch);
    assert [] + [] + wakeups == wakeups;
    assert [] + Wakers(batch) + wakeups[|Wakers(batch)|..] == wakeups;
  }

  lemma SelectKeepsInv(s: System, batch: seq<Event>)
    requires Inv(s) && Acting()(s, Select(batch)).Some?
    ensures Inv(Acting()(s, Select(batch)).value)
  {
    var s' := Acting()(s, Select(batch)).value;
    assert Holder(s') == Holder(s);
    SelectKeepsRoutes(s, batch);
    SelectTakes(s.router, s.comm.wakeups, batch, s.router.added, s.closed, s.proxyAlive);
  }

  // A step of the router.

  lemma HandleEventOk(r: RouterState, closed: set<nat>, alive: bool, calls: seq<RouterMsg>)
    requires RoutesOk(r, closed, alive, calls) && r.pc.Handling? && r.pc.rest != []
    ensures RoutesOk(HandleEvent(r, r.pc.rest[0], r.pc.rest[1..]), closed, alive, calls)
  {
    var e, rest := r.pc.rest[0], r.pc.rest[1..];
    var r' := HandleEvent(r, e, rest);
    if e.Closed? && e.id in r.handlers {
      assert r'.handlers.Keys == r.handlers.Keys - {e.id};
      assert forall id :: id in Closings(r.pc.rest) <==> id == e.id || id in Closings(rest);
    }
  }

  lemma {:induction false} RestOkClosings(open: set<nat>, alive: bool, rest: seq<Event>)
    requires RestOk(open, alive, rest)
    ensures forall id | id in Closings(rest) :: id in open || id == 0
    decreases |rest|
  {
    if rest != [] {
      RestOkClosings(if rest[0].Closed? then open - {rest[0].id} else open, alive, rest[1..]);
    }
  }

  lemma HandleRequestOk(r: RouterState, closed: set<nat>, alive: bool, calls: seq<RouterMsg>)
    requires RoutesOk(r, closed, alive, calls) && r.pc.Receiving? && r.added < |calls|
    ensures RoutesOk(HandleRequest(r, calls[r.added], r.pc.rest), closed, alive, calls)
  {
    var r' := HandleRequest(r, calls[r.added], r.pc.rest);
    if calls[r.added].AddRoute? {
      assert r'.handlers.Keys == r.handlers.Keys + {r.added + 1};
      RestOkMore(r.handlers.Keys, r'.handlers.Keys, r.pc.rest, alive);
      RestOkClosings(r.handlers.Keys, alive, r.pc.rest);
    }
  }

  /** A request that the router is woken up for is there, or its sender is about to send it. */
  lemma RequestIsNext(s: System)
    requires Inv(s) && s.router.pc.Receiving?
    ensures s.comm.requests != [] ==>
              && s.comm.requests[0] == Request(s.router.pc.call, s.comm.calls[s.router.added])
              && s.router.added == s.router.pc.call < |s.comm.calls|
    ensures s.comm.requests == [] ==> Holder(s) == StopSend(s.router.pc.call) && s.proxyAlive
  {
    var wakers := Outstanding(s.router, s.comm.wakeups);
    assert wakers[0] == s.router.pc.call;
    if s.comm.requests != [] {
      assert CallsOf(s.comm.requests)[0] == s.comm.requests[0].call;
    } else {
      assert CallsOf(s.comm.requests) == [];
      assert |wakers| > 0;
    }
  }

  lemma HandlingTakesNone(r: RouterState, wakeups: seq<nat>)
    requires r.pc.Handling?
    ensures var r' := Handled(r);
            !r'.pc.Crashed? ==> Outstanding(r', wakeups) == Outstanding(r, wakeups)
  {
    if r.pc.rest != [] {
      var r' := HandleEvent(r, r.pc.rest[0], r.pc.rest[1..]);
      if r.pc.rest[0].Wakeup? {
        assert Wakers(r.pc.rest) == [r.pc.rest[0].call] + Wakers(r.pc.rest[1..]);
        assert [] + Wakers(r.pc.rest) == Wakers(r.pc.rest);
      } else {
        assert [] + Wakers(r.pc.rest[1..]) == Wakers(r.pc.rest[1..]);
      }
    }
  }

  lemma HandlingKeepsInv(s: System)
    requires Inv(s) && s.router.pc.Handling?
    ensures Inv(RouterAdvance(s).value)
  {
    var s' := RouterAdvance(s).value;
    assert Holder(s') == Holder(s) && s'.comm == s.comm;
    HandlingKeepsRoutes(s.router, s.closed, s.proxyAlive, s.comm.calls);
    HandlingKeepsQueues(Holder(s), s.comm, s.ack, s.router, s'.router);
  }

  lemma HandlingKeepsRoutes(r: RouterState, closed: set<nat>, proxyAlive: bool, calls: seq<RouterMsg>)
    requires RoutesOk(r, closed, proxyAlive, calls) && r.pc.Handling?
    ensures RoutesOk(Handled(r), closed, proxyAlive, calls) && !Handled(r).pc.Stopped?
  {
    if r.pc.rest != [] {
      HandleEventOk(r, closed, proxyAlive, calls);
    }
  }

  lemma HandlingKeepsQueues(holder: CallerPc, comm: Comm, ack: bool, r: RouterState, r': RouterState)
    requires QueuesOk(holder, comm, ack, r) && r.pc.Handling? && r' == Handled(r)
    ensures !r'.pc.Crashed? ==> QueuesOk(holder, comm, ack, r')
  {
    HandlingTakesNone(r, comm.wakeups);
    HandlingReceivesNone(r);
  }

  lemma HandlingReceivesNone(r: RouterState)
    requires r.pc.Handling?
    ensures Received(Handled(r)) == Received(r) && !Handled(r).pc.Stopped?
  {
  }

  lemma ReceivingKeepsInv(s: System)
    requires Inv(s) && s.router.pc.Receiving? && RouterAdvance(s).Some?
    ensures Inv(RouterAdvance(s).value)
  {
    var s' := RouterAdvance(s).value;
    assert Holder(s') == Holder(s);
    RequestIsNext(s);
    HandleRequestOk(s.router, s.closed, s.proxyAlive, s.comm.calls);
    ReceivingKeepsQueues(Holder(s), s.comm, s.ack, s.router);
  }

  lemma ReceivingKeepsQueues(holder: CallerPc, comm: Comm, ack: bool, r: RouterState)
    requires QueuesOk(holder, comm, ack, r) && r.pc.Receiving? && comm.requests != []
    ensures var msg := comm.requests[0].msg;
            QueuesOk(holder, comm.(requests := comm.requests[1..]), ack || msg.Shutdown?, HandleRequest(r, msg, r.pc.rest))
  {
    var msg := comm.requests[0].msg;
    var r' := HandleRequest(r, msg, r.pc.rest);
    ReceivingKeepsOrder(holder, comm, r, r');
    LastRequest(holder, comm, ack, r);
    ReceivingKeepsPaired(holder, comm, r, r');
    ReceivingKeepsShutdown(holder, comm, ack, r, r');
  }

  lemma ReceivingKeepsShutdown(holder: CallerPc, comm: Comm, ack: bool, r: RouterState, r': RouterState)
    requires ShutdownOk(holder, comm, ack, r.pc) && InOrder(holder, comm.calls, Received(r), comm.requests)
    requires r.pc.Receiving? && comm.requests != [] && r' == HandleRequest(r, comm.requests[0].msg, r.pc.rest)
    requires comm.requests[0].msg.Shutdown? ==> |comm.requests| == 1 && holder.AwaitAck?
    ensures ShutdownOk(holder, comm.(requests := comm.requests[1..]), ack || comm.requests[0].msg.Shutdown?, r'.pc)
  {
  }

  lemma ReceivingKeepsOrder(holder: CallerPc, comm: Comm, r: RouterState, r': RouterState)
    requires InOrder(holder, comm.calls, Received(r), comm.requests) && comm.requests != []
    requires Received(r') == Received(r) + 1
    ensures InOrder(holder, comm.calls, Received(r'), comm.requests[1..])
  {
  }

  /** A request to shut down is the last request, and its caller awaits the acknowledgement. */
  lemma LastRequest(holder: CallerPc, comm: Comm, ack: bool, r: RouterState)
    requires InOrder(holder, comm.calls, Received(r), comm.requests) && ShutdownOk(holder, comm, ack, r.pc)
    requires r.pc.Receiving? && comm.requests != []
    ensures comm.requests[0].msg.Shutdown? ==> |comm.requests| == 1 && holder.AwaitAck?
  {
  }

  lemma ReceivingKeepsPaired(holder: CallerPc, comm: Comm, r: RouterState, r': RouterState)
    requires Paired(holder, CallsOf(comm.requests), Outstanding(r, comm.wakeups))
    requires r.pc.Receiving? && comm.requests != [] && r' == HandleRequest(r, comm.requests[0].msg, r.pc.rest)
    requires r'.pc.Stopped? ==> |comm.requests| == 1 && holder.AwaitAck?
    ensures Paired(holder, CallsOf(comm.requests[1..]), Outstanding(r', comm.wakeups))
  {
    ReceivingTakesOne(r, comm.requests, comm.wakeups, r');
    if holder.StopSend? {
      assert Outstanding(r, comm.wakeups)[1..] == CallsOf(comm.requests)[1..] + [holder.call];
    } else if holder.AddWake? {
      var wakers := Outstanding(r, comm.wakeups);
      assert (wakers + [holder.call])[1..] == wakers[1..] + [holder.call];
    }
  }

  lemma RouterKeepsInv(s: System)
    requires Inv(s) && RouterAdvance(s).Some?
    ensures Inv(RouterAdvance(s).value)
  {
    if s.router.pc.Handling? {
      HandlingKeepsInv(s);
    } else {
      ReceivingKeepsInv(s);
    }
  }

  lemma ReceivingTakesOne(r: RouterState, requests: seq<Request>, wakeups: seq<nat>, r': RouterState)
    requires r.pc.Receiving? && requests != [] && r' == HandleRequest(r, requests[0].msg, r.pc.rest)
    ensures CallsOf(requests[1..]) == CallsOf(requests)[1..] && |CallsOf(requests)| == |requests|
    ensures |Outstanding(r, wakeups)| == 1 + |Wakers(r.pc.rest)| + |wakeups|
    ensures r'.pc.Handling? ==> Outstanding(r', wakeups) == Outstanding(r, wakeups)[1..]
    ensures r'.pc.Stopped? ==> Outstanding(r', wakeups) == wakeups
  {
    FirstOut(r.pc.call, Wakers(r.pc.rest), wakeups);
  }

  lemma FirstOut(call: nat, a: seq<nat>, b: seq<nat>)
    ensures ([call] + a + b)[1..] == [] + a + b
    ensures [] + [] + b == b
  {
  }

  lemma StepKeepsInv(s: System, a: Action)
    requires Inv(s) && Acting()(s, a).Some?
    ensures Inv(Acting()(s, a).value)
  {
    match a {
      case Call(pc) => CallKeepsInv(s, pc);
      case CallerStep(t) => CallerKeepsInv(s, t);
      case Select(batch) => SelectKeepsInv(s, batch);
      case RouterStep => RouterKeepsInv(s);
      case DropProxy => DropKeepsInv(s);
    }
  }

  lemma ReachableInv(s: System)
    requires Reachable(s)
    ensures Inv(s)
  {
    var actions :| Runs(Acting(), Start(), actions) && After(Acting(), Start(), actions) == s;
    forall s, a | Inv(s) && Acting()(s, a).Some?
      ensures Inv(Acting()(s, a).value)
    {
      StepKeepsInv(s, a);
    }
    StartInv();
    assert Keeps(Acting(), Inv);
    RunKeeps(Acting(), Inv, Start(), actions);
  }

  // ---- What the router promises ----

  /**
   Pairing: when a wakeup has been taken, the next request is that of the call which sent the wakeup, it is the
   k-th of all calls for the k-th wakeup, and no request can be missing for good: the sender of one that is not
   there yet holds the mutex and is about to send it.
   */
  lemma WakeupsMatchRequests(s: System)
    requires Reachable(s) && s.router.pc.Receiving?
    ensures s.comm.requests != [] ==>
              && s.comm.requests[0].call == s.router.pc.call == s.router.added < |s.comm.calls|
              && s.comm.requests[0].msg == s.comm.calls[s.router.pc.call]
    ensures s.comm.requests == [] ==> Holder(s) == StopSend(s.router.pc.call)
  {
    ReachableInv(s);
    RequestIsNext(s);
  }

  /** The two queues differ by at most one, and not at all while the mutex is free and the router is between batches. */
  lemma QueuesDifferByOne(s: System)
    requires Reachable(s) && !s.router.pc.Crashed?
    ensures -1 <= |s.comm.requests| - |Outstanding(s.router, s.comm.wakeups)| <= 1
    ensures s.mutex.None? && s.router.pc.Selecting? ==> CallsOf(s.comm.requests) == s.comm.wakeups
  {
    ReachableInv(s);
    assert |CallsOf(s.comm.requests)| == |s.comm.requests|;
    if s.mutex.None? && s.router.pc.Selecting? {
      assert Outstanding(s.router, s.comm.wakeups) == s.comm.wakeups;
    }
  }

  /**
   Routes are installed in the order of the calls, and every message goes to the handler that came with its own
   receiver. Between batches the handlers are those of the routes added and not reported closed.
   */
  lemma RoutesInCallOrder(s: System)
    requires Reachable(s)
    ensures s.router.added <= |s.comm.calls|
    ensures forall id | id in s.router.handlers ::
              1 <= id <= s.router.added && s.comm.calls[id - 1] == AddRoute(s.router.handlers[id])
    ensures forall k | 0 <= k < |s.router.delivered| ::
              1 <= s.router.delivered[k].id <= s.router.added
              && s.comm.calls[s.router.delivered[k].id - 1] == AddRoute(s.router.delivered[k].handler)
    ensures s.router.pc.Selecting? ==>
              forall id :: id in s.router.handlers <==> 1 <= id <= s.router.added && id !in s.closed
  {
    ReachableInv(s);
    assert Closings([]) == {};
  }

  /** The messages of a batch, each with its receiver. */
  function RoutedIn(batch: seq<Event>): seq<(nat, nat)> {
    if batch == [] then []
    else RoutedOf(batch[0]) + RoutedIn(batch[1..])
  }

  /** The messages that a run has selected. */
  function Selected(actions: seq<Action>): seq<(nat, nat)> {
    if actions == [] then []
    else (if actions[0].Select? then RoutedIn(actions[0].batch) else []) + Selected(actions[1..])
  }

  function HandedOn(delivered: seq<Delivery>): seq<(nat, nat)> {
    seq(|delivered|, k requires 0 <= k < |delivered| => (delivered[k].id, delivered[k].payload))
  }

  predicate Ended(pc: RouterPc) {
    pc.Stopped? || pc.Crashed?
  }

  /** What has been handed on, and what is still to be. */
  function InHand(r: RouterState): seq<(nat, nat)> {
    HandedOn(r.delivered) + RoutedIn(Rest(r))
  }

  function RoutedOf(e: Event): seq<(nat, nat)> {
    if e.Routed? then [(e.id, e.payload)] else []
  }

  lemma HandedOnAppend(delivered: seq<Delivery>, d: Delivery)
    ensures HandedOn(delivered + [d]) == HandedOn(delivered) + [(d.id, d.payload)]
  {
  }

  /** One event: a message is handed on, others change nothing. */
  lemma EventInHand(r: RouterState)
    requires r.pc.Handling? && r.pc.rest != []
    ensures var r' := HandleEvent(r, r.pc.rest[0], r.pc.rest[1..]);
            if Ended(r'.pc) then r'.delivered == r.delivered else InHand(r') == InHand(r)
  {
    var e, rest := r.pc.rest[0], r.pc.rest[1..];
    var r' := HandleEvent(r, e, rest);
    assert RoutedIn(r.pc.rest) == RoutedOf(e) + RoutedIn(rest);
    if e.Routed? && !r'.pc.Crashed? {
      HandedOnAppend(r.delivered, r'.delivered[|r.delivered|]);
      Joined(HandedOn(r.delivered), [(e.id, e.payload)], RoutedIn(rest));
    } else {
      Joined([], [], RoutedIn(rest));
    }
  }

  lemma Joined<T>(a: seq<T>, b: seq<T>, c: seq<T>)
    ensures a + (b + c) == a + b + c && [] + c == c && a + [] == a
  {
  }

  lemma RouterInHand(s: System)
    requires RouterAdvance(s).Some?
    ensures var r, r' := s.router, RouterAdvance(s).value.router;
            && !Ended(r.pc)
            && if Ended(r'.pc) then r'.delivered == r.delivered else InHand(r') == InHand(s.router)
  {
    var r := s.router;
    if r.pc.Handling? && r.pc.rest != [] {
      EventInHand(r);
    }
  }

  lemma StepInHand(s: System, a: Action)
    requires Acting()(s, a).Some?
    ensures var r, r' := s.router, Acting()(s, a).value.router;
            && (Ended(r.pc) ==> r' == r && !a.Select?)
            && (!Ended(r'.pc) ==> InHand(r') == InHand(r) + if a.Select? then RoutedIn(a.batch) else [])
            && (Ended(r'.pc) ==> r'.delivered == r.delivered && !a.Select?)
  {
    var r := s.router;
    Joined(InHand(r), [], []);
    match a {
      case Select(batch) => Joined(HandedOn(r.delivered), [], RoutedIn(batch));
      case RouterStep => RouterInHand(s);
      case _ =>
    }
  }

  lemma {:induction false} RunInHand(s: System, actions: seq<Action>)
    requires Runs(Acting(), s, actions)
    ensures var r := After(Acting(), s, actions).router;
            && (!Ended(r.pc) ==> InHand(r) == InHand(s.router) + Selected(actions))
            && HandedOn(r.delivered) <= InHand(s.router) + Selected(actions)
            && (Ended(s.router.pc) ==> r == s.router)
    decreases |actions|
  {
    var before := InHand(s.router);
    if actions == [] {
      Joined(before, [], []);
    } else {
      var s1 := Acting()(s, actions[0]).value;
      var more := if actions[0].Select? then RoutedIn(actions[0].batch) else [];
      StepInHand(s, actions[0]);
      RunInHand(s1, actions[1..]);
      Joined(before, more, Selected(actions[1..]));
      if Ended(s1.router.pc) {
        assert HandedOn(s.router.delivered) <= before <= before + Selected(actions);
      }
    }
  }

  /**
   Every message is handed on: as long as the router runs, the deliveries are, message by message and in order, those
   of the batches selected so far, but for what is left of the batch in work. A router that has ended has delivered
   the first of them.
   */
  lemma EveryMessageIsHandedOn(actions: seq<Action>, s: System)
    requires Runs(Acting(), Start(), actions) && s == After(Acting(), Start(), actions)
    ensures !s.router.pc.Stopped? && !s.router.pc.Crashed? ==>
              HandedOn(s.router.delivered) + RoutedIn(Rest(s.router)) == Selected(actions)
    ensures HandedOn(s.router.delivered) <= Selected(actions)
  {
    RunInHand(Start(), actions);
    Joined([], [], Selected(actions));
  }

  /** The acknowledgement of a shutdown comes after every request made before it has been served. */
  lemma AckComesLast(s: System)
    requires Reachable(s) && s.ack
    ensures s.router.pc.Stopped? && s.comm.requests == []
    ensures |s.comm.calls| == s.router.added + 1 && s.comm.calls[s.router.added].Shutdown?
    ensures forall k | 0 <= k < s.router.added :: s.comm.calls[k].AddRoute?
  {
    ReachableInv(s);
  }

  /** The router thread never panics while the proxy, which holds the wakeup sender, is alive. */
  lemma NoCrashWhileProxyLives(s: System)
    requires Reachable(s) && s.router.pc.Crashed?
    ensures !s.proxyAlive
  {
    ReachableInv(s);
  }

  /**
   It does panic when the proxy is dropped without a shutdown: once the wakeups have been taken, the closing of
   the wakeup channel is reported, which has no handler.
   */
  lemma DroppedProxyCrashes(s: System) returns (s': System)
    requires Reachable(s) && !s.proxyAlive && s.router.pc.Selecting? && s.comm.wakeups == [] && 0 !in s.closed
    ensures Runs(Acting(), s, [Select([Closed(0)]), RouterStep])
    ensures s' == After(Acting(), s, [Select([Closed(0)]), RouterStep]) && s'.router.pc.Crashed?
  {
    ReachableInv(s);
    var batch := [Closed(0)];
    assert Wakers(batch) == [] && Reportable([], s.router.added, s.closed, false, batch);
    var s1 := Acting()(s, Select(batch)).value;
    assert 0 !in s.router.handlers;
    s' := RouterAdvance(s1).value;
    RunOne(Acting(), s1, s', RouterStep);
    assert [Select(batch), RouterStep][1..] == [RouterStep];
    RunCons(Acting(), s, s1, [Select(batch), RouterStep]);
  }

  /** No call hangs: while a caller has the mutex, it or the router can take a step. */
  lemma CallsDoNotHang(s: System) returns (a: Action)
    requires Reachable(s) && s.mutex.Some?
    ensures Acting()(s, a).Some? && (a == CallerStep(s.mutex.value) || a.RouterStep? || a.Select?)
  {
    ReachableInv(s);
    var t := s.mutex.value;
    assert HoldsMutex(s.callers[t]) && s.proxyAlive;
    a := CallerStep(t);
    if s.callers[t].AwaitAck? && !s.ack {
      a := AwaitedAck(s);
    } else {
      assert UnderMutex(s.callers[t], s.comm, s.ack, s.router.pc).Some?;
    }
  }

  /** How many steps a caller is from giving the mutex back. */
  function CallRank(pc: CallerPc): nat {
    match pc
    case AddSend(_) => 2
    case AddWake(_) => 1
    case StopTest => 5
    case StopWake => 4
    case StopSend(_) => 3
    case AwaitAck => 2
    case Join => 1
    case _ => 0
  }

  function HandlingRank(pc: RouterPc): nat {
    if pc.Handling? then 1 else 0
  }

  /** The router has got on, and the callers are where they were. */
  ghost predicate GotOn(s: System, s': System) {
    && s'.callers == s.callers && s'.mutex == s.mutex
    && (|s.comm.wakeups|, |s.comm.requests|, |Rest(s.router)|, HandlingRank(s.router.pc)
        decreases to |s'.comm.wakeups|, |s'.comm.requests|, |Rest(s'.router)|, HandlingRank(s'.router.pc))
  }

  /**
   Every call ends: the caller that has the mutex and the router, between them and without any other caller, have a run
   at whose end the call has returned or panicked and the mutex is free.
   */
  lemma MutexComesFree(s: System) returns (actions: seq<Action>)
    requires Reachable(s) && s.mutex.Some?
    ensures forall a | a in actions :: a == CallerStep(s.mutex.value) || a.RouterStep? || a.Select?
    ensures Runs(Acting(), s, actions)
    ensures var s' := After(Acting(), s, actions);
            s'.mutex == None && s.mutex.value < |s'.callers| && Done(s'.callers[s.mutex.value])
  {
    ReachableInv(s);
    actions := FreesMutex(s);
  }

  lemma {:induction false} FreesMutex(s: System) returns (actions: seq<Action>)
    requires Inv(s) && s.mutex.Some?
    ensures forall a | a in actions :: a == CallerStep(s.mutex.value) || a.RouterStep? || a.Select?
    ensures Runs(Acting(), s, actions)
    ensures var s' := After(Acting(), s, actions);
            s'.mutex == None && s.mutex.value < |s'.callers| && Done(s'.callers[s.mutex.value])
    decreases CallRank(Holder(s)), |s.comm.wakeups|, |s.comm.requests|, |Rest(s.router)|, HandlingRank(s.router.pc)
  {
    var t := s.mutex.value;
    assert HoldsMutex(s.callers[t]) && s.proxyAlive;
    var a := CallerStep(t);
    if s.callers[t].AwaitAck? && !s.ack {
      a := AwaitedAck(s);
    } else {
      HolderGetsOn(s);
    }
    var s1 := Acting()(s, a).value;
    StepKeepsInv(s, a);
    actions := [];
    if s1.mutex.Some? {
      actions := FreesMutex(s1);
    }
    RunFirst(Acting(), s, s1, a, actions);
    actions := [a] + actions;
  }

  lemma UnderMutexLowers(pc: CallerPc, comm: Comm, ack: bool, router: RouterPc)
    requires HoldsMutex(pc) && (pc.AwaitAck? ==> ack) && (pc.Join? ==> router.Stopped?)
    ensures UnderMutex(pc, comm, ack, router).Some?
    ensures var pc' := UnderMutex(pc, comm, ack, router).value.0;
            (HoldsMutex(pc') && CallRank(pc') < CallRank(pc)) || Done(pc')
  {
  }

  lemma HolderGetsOn(s: System)
    requires Inv(s) && s.mutex.Some? && !(Holder(s).AwaitAck? && !s.ack)
    ensures CallerAdvance(s, s.mutex.value).Some?
    ensures var s' := CallerAdvance(s, s.mutex.value).value;
            && (s'.mutex.Some? ==> s'.mutex == s.mutex && CallRank(Holder(s')) < CallRank(Holder(s)))
            && (s'.mutex.None? ==> s.mutex.value < |s'.callers| && Done(s'.callers[s.mutex.value]))
  {
    var t := s.mutex.value;
    assert HoldsMutex(s.callers[t]);
    assert s.callers[t].Join? ==> s.ack;
    UnderMutexLowers(s.callers[t], s.comm, s.ack, s.router.pc);
    CallerHolds(s, t);
  }

  /** A shutdown that has been requested gets on. */
  lemma AwaitedAck(s: System) returns (a: Action)
    requires Inv(s) && Holder(s).AwaitAck? && !s.ack && s.proxyAlive
    ensures Acting()(s, a).Some? && (a.RouterStep? || a.Select?) && GotOn(s, Acting()(s, a).value)
  {
    if s.router.pc.Selecting? {
      assert Outstanding(s.router, s.comm.wakeups) == s.comm.wakeups;
      assert |CallsOf(s.comm.requests)| == |s.comm.requests| > 0;
      var call := s.comm.wakeups[0];
      a := Select([Wakeup(call)]);
      assert [Wakeup(call)][1..] == [] && Wakers([Wakeup(call)]) == [call];
      assert Reportable(s.comm.wakeups[1..], s.router.added, s.closed, true, []);
      assert Reportable(s.comm.wakeups, s.router.added, s.closed, true, [Wakeup(call)]);
    } else {
      a := RouterStep;
      if s.router.pc.Receiving? {
        RequestIsNext(s);
      }
      assert RouterAdvance(s).Some?;
    }
  }

  /** After a shutdown, adding a route panics and poisons the mutex. */
  lemma NoRouteAfterShutdown(s: System, t: nat)
    requires Reachable(s) && t < |s.callers| && s.callers[t].AddSend? && s.comm.shutdown
    ensures var s' := CallerAdvance(s, t).value;
            CallerAdvance(s, t).Some? && s'.callers[t].Panicked? && s'.poisoned && s'.comm == s.comm
  {
    ReachableInv(s);
    assert HoldsMutex(s.callers[t]);
  }

  /**
   A shutdown returns only when another one has been requested before, or when the router has acknowledged it and its
   thread has ended.
   */
  lemma ShutdownReturnsLast(s: System, t: nat)
    requires Reachable(s) && t < |s.callers| && CallerAdvance(s, t).Some?
    requires s.callers[t] in {StopTest, StopWake, AwaitAck, Join} || s.callers[t].StopSend?
    requires CallerAdvance(s, t).value.callers[t].Returned?
    ensures if s.callers[t].StopTest? then s.comm.shutdown
            else s.ack && s.router.pc.Stopped? && s.comm.requests == []
  {
    ReachableInv(s);
    assert HoldsMutex(s.callers[t]);
  }

  ghost predicate PoisonOk(s: System) {
    Inv(s) && (s.poisoned ==> s.mutex.None?)
  }

  lemma CallerKeepsPoison(s: System, t: nat)
    requires MutexOk(s) && t < |s.callers| && CallerAdvance(s, t).Some? && (s.poisoned ==> s.mutex.None?)
    ensures var s' := CallerAdvance(s, t).value; s'.poisoned ==> s'.mutex.None?
  {
    assert HoldsMutex(s.callers[t]) <==> s.mutex == Some(t);
  }

  lemma OthersKeepPoison(s: System, a: Action)
    requires Acting()(s, a).Some? && !a.CallerStep?
    ensures var s' := Acting()(s, a).value; s'.poisoned == s.poisoned && s'.mutex == s.mutex
  {
    match a {
      case RouterStep => RouterKeepsMutex(s);
      case Call(pc) => assert Acting()(s, a).value == s.(callers := s.callers + [pc]);
      case DropProxy => assert Acting()(s, a).value == s.(proxyAlive := false);
      case Select(batch) => assert Acting()(s, a).value.callers == s.callers;
    }
  }

  lemma RouterKeepsMutex(s: System)
    requires RouterAdvance(s).Some?
    ensures var s' := RouterAdvance(s).value; s'.poisoned == s.poisoned && s'.mutex == s.mutex
  {
  }

  lemma StepKeepsPoison(s: System, a: Action)
    requires PoisonOk(s) && Acting()(s, a).Some?
    ensures PoisonOk(Acting()(s, a).value)
  {
    StepKeepsInv(s, a);
    if a.CallerStep? {
      CallerKeepsPoison(s, a.t);
    } else {
      OthersKeepPoison(s, a);
    }
  }

  lemma {:induction false} RunKeepsPoison(s: System, actions: seq<Action>)
    requires PoisonOk(s) && Runs(Acting(), s, actions)
    ensures PoisonOk(After(Acting(), s, actions))
    decreases |actions|
  {
    if actions != [] {
      StepKeepsPoison(s, actions[0]);
      RunKeepsPoison(Acting()(s, actions[0]).value, actions[1..]);
    }
  }

  lemma ReachablePoison(s: System)
    requires Reachable(s)
    ensures PoisonOk(s)
  {
    var actions :| Runs(Acting(), Start(), actions) && After(Acting(), Start(), actions) == s;
    StartInv();
    RunKeepsPoison(Start(), actions);
  }

  /** A poisoned mutex is never taken again: every call that comes to it panics, and changes nothing else. */
  lemma PoisonedForGood(s: System, t: nat)
    requires Reachable(s) && s.poisoned
    ensures s.mutex.None?
    ensures t < |s.callers| && (s.callers[t].AddLock? || s.callers[t].StopLock?) ==>
              CallerAdvance(s, t) == Some(s.(callers := s.callers[t := Panicked]))
  {
    ReachablePoison(s);
  }

  // ---- The loop of the router thread ----

  /** A batch worked off as far as the requests at hand allow: to its end, to the end of the router, or to a wait. */
  function RunBatch(r: RouterState, requests: seq<Request>): (RouterState, seq<Request>)
    decreases |Rest(r)|, |requests|, r.pc
  {
    match r.pc
    case Handling(rest) =>
      if rest == [] then (r.(pc := Selecting), requests) else RunBatch(HandleEvent(r, rest[0], rest[1..]), requests)
    case Receiving(_, rest) =>
      if requests == [] then (r, requests) else RunBatch(HandleRequest(r, requests[0].msg, rest), requests[1..])
    case _ => (r, requests)
  }

  /** How far a batch has been worked off: the messages up to there have been handed on, and no others. */
  predicate WorkedOff(r: RouterState, r': RouterState, n: nat)
    requires n <= |Rest(r)|
  {
    && HandedOn(r'.delivered) == HandedOn(r.delivered) + RoutedIn(Rest(r)[..n])
    && match r'.pc
       case Selecting => n == |Rest(r)|
       case Receiving(call, rest) =>
         rest == Rest(r)[n..] && ((n == 0 && r'.pc == r.pc) || (n > 0 && Rest(r)[n - 1] == Wakeup(call)))
       case Stopped => (n == 0 && r.pc.Receiving?) || (n > 0 && Rest(r)[n - 1].Wakeup?)
       case Crashed => n < |Rest(r)| && !Rest(r)[n].Wakeup? && Rest(r)[n].id !in r'.handlers
       case _ => false
  }

  lemma OneEventMore(r: RouterState, r': RouterState, k: nat)
    requires r.pc.Handling? && r.pc.rest != [] && k <= |r.pc.rest| - 1
    requires var r1 := HandleEvent(r, r.pc.rest[0], r.pc.rest[1..]); !r1.pc.Crashed? && WorkedOff(r1, r', k)
    ensures WorkedOff(r, r', k + 1)
  {
    var e, rest := r.pc.rest[0], r.pc.rest[1..];
    var r1 := HandleEvent(r, e, rest);
    assert r.pc.rest[..k + 1][0] == e && r.pc.rest[..k + 1][1..] == rest[..k];
    if e.Routed? {
      HandedOnAppend(r.delivered, r1.delivered[|r.delivered|]);
    }
    Joined(HandedOn(r.delivered), RoutedOf(e), RoutedIn(rest[..k]));
    Joined([], [], RoutedIn(rest[..k]));
    Joined(HandedOn(r.delivered), [], []);
  }

  lemma {:induction false} BatchHandsOn(r: RouterState, requests: seq<Request>) returns (n: nat)
    requires r.pc.Handling? || r.pc.Receiving?
    ensures n <= |Rest(r)| && WorkedOff(r, RunBatch(r, requests).0, n)
    decreases |Rest(r)|, |requests|, r.pc
  {
    n := 0;
    Joined(HandedOn(r.delivered), [], []);
    if r.pc.Receiving? && requests != [] {
      var r1 := HandleRequest(r, requests[0].msg, r.pc.rest);
      if r1.pc.Handling? {
        n := BatchHandsOn(r1, requests[1..]);
      }
    } else if r.pc.Handling? && r.pc.rest != [] {
      var e, rest := r.pc.rest[0], r.pc.rest[1..];
      var r1 := HandleEvent(r, e, rest);
      if !r1.pc.Crashed? {
        var k := BatchHandsOn(r1, requests);
        n := k + 1;
        OneEventMore(r, RunBatch(r1, requests).0, k);
      }
    }
  }

  class RouterThread {
    var handlers: map<nat, nat>
    var added: nat
    var delivered: seq<Delivery>
    var msgReceiver: seq<Request>

    function State(pc: RouterPc): RouterState
      reads this
    {
      RouterState(pc, added, handlers, delivered)
    }

    constructor ()
      ensures State(Selecting) == Start().router && msgReceiver == []
    {
      handlers, added, delivered, msgReceiver := map[], 0, [], [];
    }

    /** The inner loop of `run`, over the results of one select. Where a request is missing it waits. */
    method HandleBatch(results: seq<Event>) returns (pc: RouterPc, ghost passed: nat)
      modifies this
      ensures (State(pc), msgReceiver) == RunBatch(old(State(Handling(results))), old(msgReceiver))
      ensures passed <= |results|
      ensures HandedOn(delivered) == HandedOn(old(delivered)) + RoutedIn(results[..passed])
      ensures match pc
              case Selecting => passed == |results|
              case Receiving(call, rest) => rest == results[passed..] && passed > 0 && results[passed - 1] == Wakeup(call)
              case Stopped => passed > 0 && results[passed - 1].Wakeup?
              case Crashed => passed < |results| && !results[passed].Wakeup? && results[passed].id !in handlers
              case _ => false
    {
      passed := BatchHandsOn(State(Handling(results)), msgReceiver);
      pc := HandleAll(results);
    }

    method HandleAll(results: seq<Event>) returns (pc: RouterPc)
      modifies this
      ensures (State(pc), msgReceiver) == RunBatch(old(State(Handling(results))), old(msgReceiver))
    {
      var k := 0;
      while k < |results|
        invariant 0 <= k <= |results|
        invariant RunBatch(State(Handling(results[k..])), msgReceiver) ==
                  RunBatch(old(State(Handling(results))), old(msgReceiver))
      {
        assert results[k..][1..] == results[k + 1..];
        match results[k] {
          case Wakeup(call) =>
            if msgReceiver == [] {
              return Receiving(call, results[k + 1..]);
            }
            var msg := msgReceiver[0].msg;
            msgReceiver := msgReceiver[1..];
            match msg {
              case AddRoute(handler) =>
                added := added + 1;
                handlers := handlers[added := handler];
              case Shutdown =>
                assert RunBatch(State(Stopped), msgReceiver) == (State(Stopped), msgReceiver);
                return Stopped;
            }
          case Routed(id, payload) =>
            if id !in handlers {
              return Crashed;
            }
            delivered := delivered + [Delivery(id, handlers[id], payload)];
          case Closed(id) =>
            if id !in handlers {
              return Crashed;
            }
            handlers := handlers - {id};
        }
        k := k + 1;
      }
      return Selecting;
    }
  }

  /** While the proxy is alive, the loop is a run of steps of the router thread. */
  lemma {:induction false} LoopIsSteps(s: System) returns (actions: seq<Action>)
    requires s.proxyAlive
    ensures (forall a | a in actions :: a == RouterStep) && Runs(Acting(), s, actions)
    ensures var s' := After(Acting(), s, actions);
            var (router, requests) := RunBatch(s.router, s.comm.requests);
            s' == s.(router := router, comm := s.comm.(requests := requests), ack := s'.ack)
    decreases |Rest(s.router)|, |s.comm.requests|, s.router.pc
  {
    actions := [];
    if (s.router.pc.Handling? && s.router.pc.rest != []) || (s.router.pc.Receiving? && s.comm.requests != []) {
      var s1 := RouterAdvance(s).value;
      var rest := LoopIsSteps(s1);
      actions := [RouterStep] + rest;
      assert actions[1..] == rest;
      RunCons(Acting(), s, s1, actions);
    } else if s.router.pc.Handling? {
      var s1 := RouterAdvance(s).value;
      actions := [RouterStep];
      RunOne(Acting(), s, s1, RouterStep);
    }
  }
}
