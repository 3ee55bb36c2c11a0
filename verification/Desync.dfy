/**
 Sleeping until the program desynchronises (src/desync.rs:34-67): a condition variable, the flag that it
 guards, and the global DESYNC flag, which is tested and set without the lock. Any number of threads may sleep
 and mark the program as desynchronised, again and again and in any interleaving; a waiting thread may also
 wake up for no reason.
 */
module Desync {
  import opened Confluence
  import opened Identities

  /** Where a thread is. */
  datatype Pc =
    | Outside
    // sleep_until_desync
    | Enter     // about to lock
    | Test      // has the lock, about to look at the flag
    | Waiting   // in the wait set
    | Woken     // out of the wait set, about to lock again
    | Leave     // has seen the flag, about to unlock
    // mark_program_as_desynced
    | Load      // about to look at DESYNC
    | Store     // about to set it
    | Lock      // about to lock
    | Raise     // has the lock, about to set the flag
    | Notify    // about to notify all
    | Unlock    // about to unlock

  datatype Monitor = Monitor(pcs: seq<Pc>, lock: Maybe<nat>, flag: bool, desync: bool)

  datatype Action = BeginSleep(t: nat) | BeginMark(t: nat) | Go(t: nat) | Spurious(t: nat)

  function Start(threads: nat): Monitor {
    Monitor(seq(threads, _ => Outside), None, false, false)
  }

  function Moved(s: Monitor, t: nat, pc: Pc): Monitor
    requires t < |s.pcs|
  {
    s.(pcs := s.pcs[t := pc])
  }

  /** Takes the lock if it is free. */
  function Acquire(s: Monitor, t: nat, pc: Pc): Maybe<Monitor>
    requires t < |s.pcs|
  {
    if s.lock == None then Some(Moved(s, t, pc).(lock := Some(t))) else None
  }

  function Release(s: Monitor, t: nat, pc: Pc): Monitor
    requires t < |s.pcs|
  {
    Moved(s, t, pc).(lock := None)
  }

  function WakeAll(pcs: seq<Pc>): seq<Pc> {
    seq(|pcs|, i requires 0 <= i < |pcs| => if pcs[i] == Waiting then Woken else pcs[i])
  }

  /** The next step of thread `t`, if it is not blocked. */
  function Advance(s: Monitor, t: nat): Maybe<Monitor>
    requires t < |s.pcs|
  {
    match s.pcs[t]
    case Outside => None
    case Enter => Acquire(s, t, Test)
    case Test => Some(if s.flag then Moved(s, t, Leave) else Release(s, t, Waiting))
    case Waiting => None
    case Woken => Acquire(s, t, Test)
    case Leave => Some(Release(s, t, Outside))
    case Load => Some(if s.desync then Moved(s, t, Outside) else Moved(s, t, Store))
    case Store => Some(Moved(s, t, Lock).(desync := true))
    case Lock => Acquire(s, t, Raise)
    case Raise => Some(Moved(s, t, Notify).(flag := true))
    case Notify => Some(Moved(s.(pcs := WakeAll(s.pcs)), t, Unlock))
    case Unlock => Some(Release(s, t, Outside))
  }

  function Acting(): Stepper<Monitor, Action> {
    (s: Monitor, a: Action) =>
      if a.t >= |s.pcs| then None
      else match a
        case BeginSleep(t) => if s.pcs[t] == Outside then Some(Moved(s, t, Enter)) else None
        case BeginMark(t) => if s.pcs[t] == Outside then Some(Moved(s, t, Load)) else None
        case Go(t) => Advance(s, t)
        case Spurious(t) => if s.pcs[t] == Waiting then Some(Moved(s, t, Woken)) else None
  }

  ghost predicate Reachable(s: Monitor) {
    exists threads, actions :: Runs(Acting(), Start(threads), actions) && After(Acting(), Start(threads), actions) == s
  }

  // ---- The invariant ----

  predicate HoldsLock(pc: Pc) {
    pc in {Test, Leave, Raise, Notify, Unlock}
  }

  predicate IsAt(s: Monitor, m: nat, pc: Pc) {
    m < |s.pcs| && s.pcs[m] == pc
  }

  /** A marker has set DESYNC and will set the flag. */
  ghost predicate OnItsWay(s: Monitor) {
    exists m :: IsAt(s, m, Lock) || IsAt(s, m, Raise)
  }

  ghost predicate LockIsExclusive(s: Monitor) {
    && (forall t: nat | t < |s.pcs| :: HoldsLock(s.pcs[t]) <==> s.lock == Some(t))
    && (s.lock.Some? ==> s.lock.value < |s.pcs|)
  }

  /** A thread waits under the flag only while some thread is about to notify. */
  ghost predicate WaitersAreNotified(s: Monitor) {
    s.flag && (exists t :: IsAt(s, t, Waiting)) ==> exists m :: IsAt(s, m, Notify)
  }

  /** What follows from where the threads are. */
  ghost predicate PlacesFit(s: Monitor) {
    && (forall t: nat | t < |s.pcs| :: s.pcs[t] in {Lock, Raise, Notify, Unlock} ==> s.desync)
    && (forall t: nat | t < |s.pcs| :: s.pcs[t] in {Leave, Notify, Unlock} ==> s.flag)
    && (s.flag ==> s.desync)
  }

  ghost predicate Inv(s: Monitor) {
    && LockIsExclusive(s)
    && WaitersAreNotified(s)
    && PlacesFit(s)
    && (s.desync ==> s.flag || OnItsWay(s))
  }

  lemma StartInv(threads: nat)
    ensures Inv(Start(threads))
  {
  }

  /** A step of one thread moves no other, but for those that it wakes. */
  lemma OthersAdvance(s: Monitor, t: nat, m: nat)
    requires t < |s.pcs| && Advance(s, t).Some? && m < |s.pcs| && m != t
    ensures var s' := Advance(s, t).value;
            && |s'.pcs| == |s.pcs|
            && (s'.pcs[m] == s.pcs[m] || (s.pcs[m] == Waiting && s'.pcs[m] == Woken && s.pcs[t] == Notify))
  {
  }

  lemma OthersStay(s: Monitor, a: Action, m: nat)
    requires Acting()(s, a).Some? && m < |s.pcs| && m != a.t
    ensures var s' := Acting()(s, a).value;
            && |s'.pcs| == |s.pcs|
            && (s'.pcs[m] == s.pcs[m] || (s.pcs[m] == Waiting && s'.pcs[m] == Woken && s.pcs[a.t] == Notify))
  {
    if a.Go? {
      OthersAdvance(s, a.t, m);
    }
  }

  lemma StepKeepsLock(s: Monitor, a: Action)
    requires LockIsExclusive(s) && Acting()(s, a).Some?
    ensures LockIsExclusive(Acting()(s, a).value)
  {
    var s' := Acting()(s, a).value;
    forall t: nat | t < |s'.pcs|
      ensures HoldsLock(s'.pcs[t]) <==> s'.lock == Some(t)
    {
      if t != a.t {
        OthersStay(s, a, t);
      }
      assert HoldsLock(s.pcs[t]) <==> s.lock == Some(t);
      assert HoldsLock(s.pcs[a.t]) <==> s.lock == Some(a.t);
    }
  }

  lemma StepKeepsPlaces(s: Monitor, a: Action)
    requires PlacesFit(s) && Acting()(s, a).Some?
    ensures PlacesFit(Acting()(s, a).value)
    ensures s.flag ==> Acting()(s, a).value.flag
    ensures s.desync ==> Acting()(s, a).value.desync
  {
    var s' := Acting()(s, a).value;
    forall t: nat | t < |s'.pcs|
      ensures s'.pcs[t] in {Lock, Raise, Notify, Unlock} ==> s'.desync
      ensures s'.pcs[t] in {Leave, Notify, Unlock} ==> s'.flag
    {
      if t != a.t {
        OthersStay(s, a, t);
      }
    }
  }

  lemma StepKeepsWaiters(s: Monitor, a: Action)
    requires WaitersAreNotified(s) && Acting()(s, a).Some?
    ensures WaitersAreNotified(Acting()(s, a).value)
  {
    var s' := Acting()(s, a).value;
    if s'.flag && exists t :: IsAt(s', t, Waiting) {
      if s.flag {
        var t: nat :| IsAt(s', t, Waiting);
        assert IsAt(s, t, Waiting) by {
          if t != a.t {
            OthersStay(s, a, t);
          }
        }
        var m: nat :| IsAt(s, m, Notify);
        OthersStay(s, a, m);
        assert IsAt(s', m, Notify);
      } else {
        assert IsAt(s', a.t, Notify);
      }
    }
  }

  lemma StepKeepsMarkers(s: Monitor, a: Action)
    requires (s.desync ==> s.flag || OnItsWay(s)) && Acting()(s, a).Some?
    ensures var s' := Acting()(s, a).value; s'.desync ==> s'.flag || OnItsWay(s')
  {
    var s' := Acting()(s, a).value;
    if s'.desync && !s'.flag {
      if s.desync {
        var m: nat :| IsAt(s, m, Lock) || IsAt(s, m, Raise);
        if m != a.t {
          OthersStay(s, a, m);
        }
        assert IsAt(s', m, Lock) || IsAt(s', m, Raise);
      } else {
        assert IsAt(s', a.t, Lock);
      }
    }
  }

  lemma StepKeepsInv(s: Monitor, a: Action)
    requires Inv(s) && Acting()(s, a).Some?
    ensures Inv(Acting()(s, a).value)
    ensures s.flag ==> Acting()(s, a).value.flag
    ensures s.desync ==> Acting()(s, a).value.desync
  {
    StepKeepsLock(s, a);
    StepKeepsPlaces(s, a);
    StepKeepsWaiters(s, a);
    StepKeepsMarkers(s, a);
  }

  lemma ReachableInv(s: Monitor)
    requires Reachable(s)
    ensures Inv(s)
  {
    var threads, actions :| Runs(Acting(), Start(threads), actions) && After(Acting(), Start(threads), actions) == s;
    assert Keeps(Acting(), Inv) by {
      forall s, a | Inv(s) && Acting()(s, a).Some?
        ensures Inv(Acting()(s, a).value)
      {
        StepKeepsInv(s, a);
      }
    }
    StartInv(threads);
    RunKeeps(Acting(), Inv, Start(threads), actions);
  }

  /**
   No lost wakeup: in every interleaving, once the flag is set, nobody is in the wait set unless some thread is
   about to notify. A thread that wakes up the others has set the flag. A thread that has
   seen the flag knows that the program has desynchronised.
   */
  lemma NoLostWakeup(s: Monitor, t: nat)
    requires Reachable(s) && t < |s.pcs|
    ensures s.flag && s.pcs[t] == Waiting ==> exists m: nat :: IsAt(s, m, Notify) && s.lock == Some(m)
    ensures s.pcs[t] in {Notify, Unlock} ==> s.flag
    ensures s.pcs[t] == Leave ==> s.flag && s.desync
    ensures s.desync && !s.flag ==> OnItsWay(s)
  {
    ReachableInv(s);
    assert IsAt(s, t, s.pcs[t]);
  }

  /**
   A marker that finds DESYNC already set returns at once, and then the flag need not be set yet: DESYNC is
   tested and set without the lock. Two threads and five steps show it.
   */
  lemma EarlyMarkerOvertakesFlag() returns (s: Monitor, actions: seq<Action>)
    ensures Runs(Acting(), Start(2), actions) && After(Acting(), Start(2), actions) == s
    ensures BeginMark(1) in actions && IsAt(s, 1, Outside) && s.desync && !s.flag
  {
    var s1 := Monitor([Load, Outside], None, false, false);
    var s2 := Monitor([Store, Outside], None, false, false);
    var s3 := Monitor([Lock, Outside], None, false, true);
    var s4 := Monitor([Lock, Load], None, false, true);
    s := Monitor([Lock, Outside], None, false, true);
    assert Start(2).pcs == [Outside, Outside];
    assert Moved(Start(2), 0, Load).pcs == s1.pcs && Moved(s1, 0, Store).pcs == s2.pcs && Moved(s2, 0, Lock).pcs == s3.pcs;
    assert Moved(s3, 1, Load).pcs == s4.pcs && Moved(s4, 1, Outside).pcs == s.pcs;
    actions := [BeginMark(0), Go(0), Go(0), BeginMark(1), Go(1)];
    RunOne(Acting(), s4, s, Go(1));
    assert actions[4..] == [Go(1)];
    RunCons(Acting(), s3, s4, actions[3..]);
    RunCons(Acting(), s2, s3, actions[2..]);
    RunCons(Acting(), s1, s2, actions[1..]);
    RunCons(Acting(), Start(2), s1, actions);
  }

  // ---- Nobody returns before ----

  predicate Sleeping(pc: Pc) {
    pc in {Enter, Test, Waiting, Woken, Leave}
  }

  predicate Marking(pc: Pc) {
    pc in {Load, Store, Lock, Raise, Notify, Unlock}
  }

  ghost predicate NobodyMarks(s: Monitor) {
    !s.desync && !s.flag && forall t: nat | t < |s.pcs| :: !Marking(s.pcs[t])
  }

  lemma StepFlags(s: Monitor, a: Action, t: nat)
    requires Inv(s) && Acting()(s, a).Some? && t < |s.pcs|
    ensures var s' := Acting()(s, a).value;
            && |s'.pcs| == |s.pcs| && (s.desync ==> s'.desync) && (s.flag ==> s'.flag)
            && (Sleeping(s.pcs[t]) && !s'.flag ==> Sleeping(s'.pcs[t]))
            && (Marking(s.pcs[t]) && !Marking(s'.pcs[t]) ==> s'.desync)
            && (NobodyMarks(s) && !a.BeginMark? ==> !s'.desync && !s'.flag && !Marking(s'.pcs[t]))
  {
    if a.t != t {
      OthersStay(s, a, t);
    }
  }

  lemma {:induction false} FlagsOverRuns(s: Monitor, actions: seq<Action>, t: nat)
    requires Inv(s) && Runs(Acting(), s, actions) && t < |s.pcs|
    ensures var s' := After(Acting(), s, actions);
            && |s'.pcs| == |s.pcs| && (s.desync ==> s'.desync) && (s.flag ==> s'.flag)
            && (Sleeping(s.pcs[t]) && !s'.flag ==> Sleeping(s'.pcs[t]))
            && (Marking(s.pcs[t]) && !Marking(s'.pcs[t]) ==> s'.desync)
            && (NobodyMarks(s) && (forall a | a in actions :: !a.BeginMark?) ==>
                  NobodyMarks(s') && (Sleeping(s.pcs[t]) ==> Sleeping(s'.pcs[t])))
    decreases |actions|
  {
    if actions != [] {
      var s1 := Acting()(s, actions[0]).value;
      StepKeepsInv(s, actions[0]);
      forall u: nat | u < |s.pcs| {
        StepFlags(s, actions[0], u);
      }
      FlagsOverRuns(s1, actions[1..], t);
      assert actions[0] in actions && forall a | a in actions[1..] :: a in actions;
    }
  }

  /**
   Sleeping lasts until the program is marked, and marking marks it: over every run both flags stay once they are set, a
   thread that sleeps does so at least until the flag is set, a thread that has marked the program leaves DESYNC set, and
   as long as nobody begins to mark, neither flag is set and everybody who sleeps goes on sleeping.
   */
  lemma SleepUntilMarked(s: Monitor, actions: seq<Action>, t: nat)
    requires Reachable(s) && Runs(Acting(), s, actions) && t < |s.pcs|
    ensures var s' := After(Acting(), s, actions);
            && |s'.pcs| == |s.pcs| && (s.desync ==> s'.desync) && (s.flag ==> s'.flag)
            && (Sleeping(s.pcs[t]) && !s'.flag ==> Sleeping(s'.pcs[t]))
            && (Marking(s.pcs[t]) && !Marking(s'.pcs[t]) ==> s'.desync)
            && (NobodyMarks(s) && (forall a | a in actions :: !a.BeginMark?) ==>
                  NobodyMarks(s') && (Sleeping(s.pcs[t]) ==> Sleeping(s'.pcs[t])))
  {
    ReachableInv(s);
    FlagsOverRuns(s, actions, t);
  }

  // ---- Every sleeper returns ----

  /** How many steps a thread may still take inside once the flag is set. */
  function RankOf(pc: Pc): nat {
    match pc
    case Outside => 0
    case Leave => 1
    case Test => 2
    case Enter => 3
    case Woken => 3
    case Waiting => 4
    case Unlock => 1
    case Notify => 2
    case Raise => 3
    case Lock => 4
    case Store => 5
    case Load => 6
  }

  function Rank(pcs: seq<Pc>): nat {
    if pcs == [] then 0 else RankOf(pcs[0]) + Rank(pcs[1..])
  }

  lemma {:induction false} RankUpdate(pcs: seq<Pc>, t: nat, pc: Pc)
    requires t < |pcs|
    ensures Rank(pcs[t := pc]) + RankOf(pcs[t]) == Rank(pcs) + RankOf(pc)
  {
    if t == 0 {
      assert pcs[t := pc][1..] == pcs[1..];
    } else {
      assert pcs[t := pc][1..] == pcs[1..][t - 1 := pc];
      RankUpdate(pcs[1..], t - 1, pc);
    }
  }

  lemma {:induction false} RankWakeAll(pcs: seq<Pc>)
    ensures Rank(WakeAll(pcs)) <= Rank(pcs)
  {
    if pcs != [] {
      assert WakeAll(pcs)[1..] == WakeAll(pcs[1..]);
      RankWakeAll(pcs[1..]);
    }
  }

  /** Where a thread goes under the flag, if it does not notify. */
  lemma PlaceLowersRank(s: Monitor, a: Action)
    requires Inv(s) && s.flag && (a.Go? || a.Spurious?) && Acting()(s, a).Some? && s.pcs[a.t] != Notify
    ensures RankOf(Acting()(s, a).value.pcs[a.t]) < RankOf(s.pcs[a.t])
  {
  }

  lemma NotifyWakesAll(s: Monitor, t: nat)
    requires t < |s.pcs| && s.pcs[t] == Notify
    ensures Acting()(s, Go(t)).Some? && Acting()(s, Go(t)).value.pcs == WakeAll(s.pcs)[t := Unlock]
  {
  }

  /** Under the flag every step of a thread that is inside, and every spurious wakeup, brings the end nearer. */
  lemma StepLowersRank(s: Monitor, a: Action)
    requires Inv(s) && s.flag && (a.Go? || a.Spurious?) && Acting()(s, a).Some?
    ensures Rank(Acting()(s, a).value.pcs) < Rank(s.pcs)
  {
    if s.pcs[a.t] == Notify {
      NotifyWakesAll(s, a.t);
      RankWakeAll(s.pcs);
      RankUpdate(WakeAll(s.pcs), a.t, Unlock);
    } else {
      PlaceLowersRank(s, a);
      OnlyItself(s, a);
      RankUpdate(s.pcs, a.t, Acting()(s, a).value.pcs[a.t]);
    }
  }

  lemma OnlyItself(s: Monitor, a: Action)
    requires Acting()(s, a).Some? && s.pcs[a.t] != Notify
    ensures Acting()(s, a).value.pcs == s.pcs[a.t := Acting()(s, a).value.pcs[a.t]]
  {
  }

  lemma WaitingMeansLocked(s: Monitor, t: nat)
    requires Inv(s) && s.flag && IsAt(s, t, Waiting)
    ensures s.lock.Some?
  {
    var m: nat :| IsAt(s, m, Notify);
    assert HoldsLock(s.pcs[m]);
  }

  /** Under the flag some thread that is inside can take a step. */
  lemma NotStuck(s: Monitor, t: nat) returns (m: nat)
    requires Inv(s) && s.flag && t < |s.pcs| && s.pcs[t] != Outside
    ensures m < |s.pcs| && Acting()(s, Go(m)).Some?
  {
    if s.pcs[t] == Waiting {
      WaitingMeansLocked(s, t);
    }
    m := if s.lock.Some? then s.lock.value else t;
    assert HoldsLock(s.pcs[m]) <==> s.lock == Some(m);
  }

  ghost predicate AllOutside(s: Monitor) {
    forall t: nat | t < |s.pcs| :: s.pcs[t] == Outside
  }

  ghost predicate OnlyGo(actions: seq<Action>) {
    forall a | a in actions :: a.Go? || a.Spurious?
  }

  /**
   Once the flag is set, nobody has to sleep for long: every run of threads that are inside, spurious wakeups
   included, is at most as long as the rank, and whenever it ends because no thread can go on, every thread has
   returned.
   */
  lemma SleepersReturn(s: Monitor, actions: seq<Action>)
    requires Reachable(s) && s.flag && OnlyGo(actions) && Runs(Acting(), s, actions)
    ensures var s' := After(Acting(), s, actions);
            && |actions| + Rank(s'.pcs) <= Rank(s.pcs)
            && ((forall t :: Acting()(s', Go(t)).None?) <==> AllOutside(s'))
  {
    ReachableInv(s);
    InsideRunIsBounded(s, actions);
  }

  lemma {:induction false} InsideRunIsBounded(s: Monitor, actions: seq<Action>)
    requires Inv(s) && s.flag && OnlyGo(actions) && Runs(Acting(), s, actions)
    ensures var s' := After(Acting(), s, actions);
            && |actions| + Rank(s'.pcs) <= Rank(s.pcs)
            && Inv(s') && s'.flag
            && ((forall t :: Acting()(s', Go(t)).None?) <==> AllOutside(s'))
    decreases |actions|
  {
    if actions == [] {
      if t: nat :| t < |s.pcs| && s.pcs[t] != Outside {
        var m := NotStuck(s, t);
      }
    } else {
      var s1 := Acting()(s, actions[0]).value;
      assert actions[0] in actions;
      StepKeepsInv(s, actions[0]);
      StepLowersRank(s, actions[0]);
      forall a | a in actions[1..]
        ensures a.Go? || a.Spurious?
      {
        assert a in actions;
      }
      InsideRunIsBounded(s1, actions[1..]);
    }
  }

  /** From any state in which DESYNC is set, at most three steps set the flag. */
  lemma FlagFollows(s: Monitor) returns (actions: seq<Action>)
    requires Reachable(s) && s.desync
    ensures OnlyGo(actions) && Runs(Acting(), s, actions) && |actions| <= 3
    ensures After(Acting(), s, actions).flag
  {
    ReachableInv(s);
    actions := SetsFlag(s);
  }

  lemma SetsFlag(s: Monitor) returns (actions: seq<Action>)
    requires Inv(s) && s.desync
    ensures OnlyGo(actions) && Runs(Acting(), s, actions)
    ensures |actions| <= if s.flag then 0 else if s.lock.None? then 2 else if s.pcs[s.lock.value] == Raise then 1 else 3
    ensures Inv(After(Acting(), s, actions)) && After(Acting(), s, actions).flag
    decreases if s.flag then 0 else if s.lock.None? then 2 else if s.pcs[s.lock.value] == Raise then 1 else 3
  {
    if s.flag {
      return [];
    }
    var t: nat;
    if s.lock.Some? {
      t := s.lock.value;
      assert HoldsLock(s.pcs[t]);
    } else {
      t :| IsAt(s, t, Lock) || IsAt(s, t, Raise);
    }
    var s1 := Acting()(s, Go(t)).value;
    StepKeepsInv(s, Go(t));
    var rest := SetsFlag(s1);
    actions := [Go(t)] + rest;
    assert actions[1..] == rest;
    RunCons(Acting(), s, s1, actions);
  }

  /**
   However threads race to mark the program: from every reachable state in which DESYNC is set, the threads that
   are inside can go on until every one of them, each sleeper in particular, has returned.
   */
  lemma EverySleeperCanReturn(s: Monitor) returns (actions: seq<Action>)
    requires Reachable(s) && s.desync
    ensures OnlyGo(actions) && Runs(Acting(), s, actions) && AllOutside(After(Acting(), s, actions))
  {
    ReachableInv(s);
    var first := SetsFlag(s);
    var rest := Finish(After(Acting(), s, first));
    RunAppend(Acting(), s, first, rest);
    actions := first + rest;
  }

  lemma Finish(s: Monitor) returns (actions: seq<Action>)
    requires Inv(s) && s.flag
    ensures OnlyGo(actions) && Runs(Acting(), s, actions) && AllOutside(After(Acting(), s, actions))
    decreases Rank(s.pcs)
  {
    if AllOutside(s) {
      return [];
    }
    var t: nat :| t < |s.pcs| && s.pcs[t] != Outside;
    var m := NotStuck(s, t);
    var s1 := Acting()(s, Go(m)).value;
    StepKeepsInv(s, Go(m));
    StepLowersRank(s, Go(m));
    var rest := Finish(s1);
    actions := [Go(m)] + rest;
    assert actions[1..] == rest;
    RunCons(Acting(), s, s1, actions);
  }
}
