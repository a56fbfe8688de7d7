/**
  Sessions that do happen: one complete session with a round in it, and the runs in which the
  protocol loses the start event or leaves the fetcher waiting for ever.
*/
module ProtocolWitnesses {
  import opened Common
  import opened Chunks
  import opened TraceProtocol
  import opened ProtocolInvariant
  import opened ProtocolTheorems

  lemma Next(u: State, s: State, l: Label)
    requires Leads(u, s) && Can(s, l)
    ensures Leads(u, Step(s, l))
  {
    var ls :| Runs(u, ls) && After(u, ls) == s;
    RunsSplit(u, ls, [l]);
    assert Runs(s, [l]) && After(s, [l]) == Step(s, l);
    assert Runs(u, ls + [l]);
  }

  predicate NoLocks(s: State) {
    s.locks == Locks(Free, Free, Free, Free)
  }

  /** One whole call of set_trace_state with nobody in the way. */
  function SetDone(s: State, site: Site): State {
    var e := SiteEvent(site);
    s.(pp := AfterSet(site), trace := Target(site), event := e, fp := Notify(s.fp),
       rounds := if e == SuspendEvent then s.rounds.(suspends := s.rounds.suspends + 1) else s.rounds)
  }

  /** Halfway: the state is written, the event mutex taken. */
  function SetHalf(s: State, site: Site): State {
    s.(pp := SetState(site, WriteEvent(SiteEvent(site))), trace := Target(site),
       locks := Locks(ByParent, ByParent, s.locks.trace, s.locks.fetcher))
  }

  lemma RunSetHalf(u: State, s: State, site: Site)
    requires Leads(u, s) && NoLocks(s) && s.pp == SetState(site, LockState)
    requires EventFor(s.trace, Target(site)) == Some(SiteEvent(site))
    ensures Leads(u, SetHalf(s, site))
  {
    var s1 := s.(locks := s.locks.(state := ByParent), pp := SetState(site, WriteState));
    Next(u, s, ParentMove(Go));
    var s2 := s1.(trace := Target(site), pp := SetState(site, Dispatch(s.trace)));
    Next(u, s1, ParentMove(Go));
    var s3 := s2.(pp := SetState(site, LockEvent(SiteEvent(site))));
    Next(u, s2, ParentMove(Go));
    Next(u, s3, ParentMove(Go));
  }

  lemma RunSet(u: State, s: State, site: Site)
    requires Leads(u, s) && NoLocks(s) && s.pp == SetState(site, LockState)
    requires EventFor(s.trace, Target(site)) == Some(SiteEvent(site))
    ensures Leads(u, SetDone(s, site))
  {
    RunSetHalf(u, s, site);
    var s4 := SetHalf(s, site);
    var s5 := SetDone(s, site).(locks := s4.locks, pp := SetState(site, Broadcast), fp := s.fp);
    Next(u, s4, ParentMove(Go));
    var s6 := s5.(fp := Notify(s.fp), pp := SetState(site, UnlockEvent));
    Next(u, s5, ParentMove(Go));
    var s7 := s6.(locks := s.locks.(state := ByParent), pp := SetState(site, UnlockState));
    Next(u, s6, ParentMove(Go));
    Next(u, s7, ParentMove(Go));
  }

  /** A wait that finds its event in the slot at once. */
  function WaitDone(s: State, goal: Goal): State {
    s.(fp := AfterWait(goal, s.event),
       rounds := if goal == StartOrFini && s.event == StartEvent
                 then s.rounds.(polls := s.rounds.polls + 1) else s.rounds)
  }

  lemma RunWait(u: State, s: State, goal: Goal)
    requires Leads(u, s) && NoLocks(s) && s.fp == Wait(goal, WantLock) && Met(goal, s.event)
    ensures Leads(u, WaitDone(s, goal))
  {
    var s1 := s.(locks := s.locks.(event := ByFetcher), fp := Wait(goal, Holding));
    Next(u, s, FetcherMove(Go));
    var s2 := s1.(fp := Wait(goal, Seen(s.event)));
    Next(u, s1, FetcherMove(Go));
    Next(u, s2, FetcherMove(Go));
  }

  /** A complete fetch. */
  function FetchDone(s: State, last: bool): State {
    s.(host := Append(s.host, s.etb), back := 0, etb := [], fp := if last then ExitLock else SinksOnLock,
       hist := s.hist.(log := s.hist.log + [Fetched(s.etb)] + [Dropped([])],
                       lastFetch := if last then Some(true) else s.hist.lastFetch))
  }

  /** The bytes are on the host, the ETB not yet reset. */
  function ReadDone(s: State, last: bool): State {
    s.(host := Append(s.host, s.etb), back := 0, etb := [], locks := s.locks.(trace := ByFetcher),
       fp := FetchEmpty(last), hist := Logged(s.hist, Fetched(s.etb)))
  }

  lemma RunRead(u: State, s: State, last: bool)
    requires Leads(u, s) && NoLocks(s) && s.fp == FetchLock(last)
    ensures Leads(u, ReadDone(s, last))
  {
    var s1 := s.(locks := s.locks.(trace := ByFetcher), fp := FetchRoom(last));
    Next(u, s, FetcherMove(Go));
    var s2 := s1.(fp := FetchRead(last));
    Next(u, s1, FetcherMove(Go));
    assert s.etb[..|s.etb|] == s.etb && s.etb[|s.etb|..] == [];
    Next(u, s2, FetcherMove(Take(|s.etb|)));
  }

  lemma RunFetch(u: State, s: State, last: bool)
    requires Leads(u, s) && NoLocks(s) && s.fp == FetchLock(last)
    ensures Leads(u, FetchDone(s, last))
  {
    RunRead(u, s, last);
    var s3 := ReadDone(s, last);
    var s4 := s3.(fp := FetchUnlock(last, true), hist := Logged(s3.hist, Dropped([])));
    Next(u, s3, FetcherMove(Go));
    Next(u, s4, FetcherMove(Go));
  }

  /** The session up to the parent's wait loop, the fetcher not yet scheduled. */
  function Started(): State {
    State(Detach, Wait(StartOrFini, WantLock), Locks(Free, Free, Free, Free), RunningState, StartEvent,
          Child(Held, false, false, false, false), true, [], [], 0,
          Rounds(0, 0, 0, false), History([], [], false, None, None))
  }

  /** init_trace is done. */
  function Ready(): State {
    Initial().(pp := EnableLock, fp := Wait(StartOrFini, WantLock), trace := ReadyState)
  }

  lemma RunReady()
    ensures Reachable(Ready())
  {
    var s0 := Initial();
    assert Runs(s0, []) && After(s0, []) == s0;
    var s1 := s0.(pp := SetState(AtReady, LockState), fp := Wait(StartOrFini, WantLock));
    Next(Initial(), s0, ParentMove(Go));
    RunSet(Initial(), s1, AtReady);
    assert SetDone(s1, AtReady) == Ready();
  }

  lemma RunStart()
    ensures Reachable(Started())
  {
    RunReady();
    var s2 := Ready();
    var s3 := s2.(locks := s2.locks.(trace := ByParent), pp := EnableWork);
    Next(Initial(), s2, ParentMove(Go));
    var s4 := s3.(collecting := true, pp := EnableUnlock);
    Next(Initial(), s3, ParentMove(Go));
    var s5 := s2.(collecting := true, pp := SetState(AtStart, LockState));
    Next(Initial(), s4, ParentMove(Go));
    RunSet(Initial(), s5, AtStart);
    assert SetDone(s5, AtStart) == Started();
  }

  /** From a clean exit to the join: full disable, stop event, fini event. */
  function Ending(s: State): State {
    s.(pp := Join, trace := FiniState, event := FiniEvent, fp := Notify(s.fp), collecting := false,
       child := s.child.(status := Reaped(true), contReport := false, contStop := false),
       hist := s.hist.(fullyOff := true))
  }

  /** The exit collected and the devices off. */
  function Disabled(s: State): State {
    s.(pp := SetState(AtStop, LockState), collecting := false,
       child := s.child.(status := Reaped(true), contReport := false, contStop := false),
       hist := s.hist.(fullyOff := true))
  }

  lemma RunDisabled(u: State, s: State)
    requires Leads(u, s) && NoLocks(s) && s.pp == WaitChild && s.child.status == Zombie(true)
    ensures Leads(u, Disabled(s))
  {
    var s1 := s.(pp := DisableLock, child := Disabled(s).child);
    Next(u, s, ParentMove(Collect(Exited)));
    var s2 := s1.(locks := s.locks.(trace := ByParent), pp := DisableTry(0));
    Next(u, s1, ParentMove(Go));
    var s3 := s2.(collecting := false, pp := DisableUnlock(true), hist := s.hist.(fullyOff := true));
    Next(u, s2, ParentMove(Go));
    Next(u, s3, ParentMove(Go));
  }

  lemma RunEnding(u: State, s: State)
    requires Leads(u, s) && NoLocks(s) && s.pp == WaitChild && s.child.status == Zombie(true)
    requires s.trace != InitState
    ensures Leads(u, Ending(s))
  {
    RunDisabled(u, s);
    RunSet(u, Disabled(s), AtStop);
    RunSet(u, SetDone(Disabled(s), AtStop), AtFini);
    assert SetDone(SetDone(Disabled(s), AtStop), AtFini) == Ending(s);
  }

  /**
    The start event can be overwritten before the fetcher looks: a short-lived child whose trace
    reached the ETB ends with an empty file.
  */
  lemma MissedStart(bytes: seq<byte>)
    ensures exists s ::
      Reachable(s) && s.pp == Finished && s.hist.produced == bytes && s.hist.exported == Some(File([]))
  {
    RunStart();
    var s1 := Started().(child := Started().child.(status := Running), pp := WaitChild);
    Next(Initial(), Started(), ParentMove(Go));
    var s2 := s1.(etb := bytes, hist := s1.hist.(produced := bytes));
    Next(Initial(), s1, Produce(bytes));
    assert [] + bytes == bytes;
    var s3 := s2.(child := s2.child.(status := Zombie(true)));
    Next(Initial(), s2, ChildExit(true));
    RunEnding(Initial(), s3);
    var s4 := Ending(s3);
    RunWait(Initial(), s4, StartOrFini);
    var s5 := WaitDone(s4, StartOrFini);
    RunExport(Initial(), s5);
  }

  /** The fetcher polling, about to compare the write position with the threshold. */
  function Comparing(): State {
    Started().(fp := Compare, rounds := Rounds(1, 0, 0, false), pp := WaitChild,
               child := Child(Running, false, false, false, false))
  }

  lemma RunComparing()
    ensures Reachable(Comparing())
  {
    RunStart();
    RunWait(Initial(), Started(), StartOrFini);
    var s1 := WaitDone(Started(), StartOrFini);
    Next(Initial(), s1, FetcherMove(Go));
    var s2 := s1.(fp := Probe);
    Next(Initial(), s2, FetcherMove(Go));
    Next(Initial(), s2.(fp := Compare), ParentMove(Go));
  }

  /**
    kill succeeds on a zombie: a fetcher that finds one still polls it, sends it SIGSTOP, and the
    join then never returns.
  */
  lemma StuckAfterStop()
    ensures exists u, s ::
      && Reachable(u) && u.child.status == Zombie(true) && u.fp == Probe
      && Leads(u, s) && s.pp == Join && PhaseOf(s.fp).AskedStop?
  {
    RunComparing();
    var s1 := Comparing().(fp := Nap);
    Next(Initial(), Comparing(), FetcherMove(Below));
    var s2 := s1.(fp := Probe);
    Next(Initial(), s1, FetcherMove(Go));
    var u := s2.(child := s2.child.(status := Zombie(true)));
    Next(Initial(), s2, ChildExit(true));
    RunStopLost(u);
  }

  /** The SIGSTOP is sent, and the fetcher waits. */
  function StopSent(u: State): State {
    u.(fp := Wait(Suspend, WantLock), rounds := u.rounds.(stopsSent := u.rounds.stopsSent + 1))
  }

  lemma RunStopSent(u: State)
    requires u.fp == Probe && u.child.status.Zombie?
    ensures Leads(u, StopSent(u))
  {
    assert Runs(u, []) && After(u, []) == u;
    var s1 := u.(fp := Compare);
    Next(u, u, FetcherMove(Go));
    var s2 := u.(fp := SendStop);
    Next(u, s1, FetcherMove(Go));
    Next(u, s2, FetcherMove(Go));
  }

  lemma RunStopLost(u: State)
    requires NoLocks(u) && u.pp == WaitChild && u.fp == Probe && u.child.status == Zombie(true)
    requires u.trace != InitState
    ensures exists s :: Leads(u, s) && s.pp == Join && PhaseOf(s.fp).AskedStop?
  {
    RunStopSent(u);
    RunEnding(u, StopSent(u));
    assert PhaseOf(Ending(StopSent(u)).fp).AskedStop?;
  }

  /** One round with a complete fetch of `bytes`, up to the wait for the resume event. */
  function AfterRound(bytes: seq<byte>): State {
    Comparing().(fp := Wait(Resume, WantLock), trace := SuspendedState, event := SuspendEvent,
                 child := Child(Running, false, false, true, true),
                 host := Append([], bytes), rounds := Rounds(1, 1, 1, false),
                 hist := History(bytes, [Fetched(bytes)] + [Dropped([])], false, None, None))
  }

  /** The round's fetch is about to begin. */
  function Suspended(bytes: seq<byte>): State {
    Comparing().(fp := SinksOffLock, trace := SuspendedState, event := SuspendEvent,
                 child := Child(Stopped, false, false, false, false), etb := bytes,
                 rounds := Rounds(1, 1, 1, false), hist := History(bytes, [], false, None, None))
  }

  lemma RunSuspended(bytes: seq<byte>)
    ensures Reachable(Suspended(bytes))
  {
    RunComparing();
    var s0 := Comparing();
    var s1 := s0.(etb := bytes, hist := History(bytes, [], false, None, None));
    Next(Initial(), s0, Produce(bytes));
    assert [] + bytes == bytes;
    var s2 := s1.(fp := SendStop);
    Next(Initial(), s1, FetcherMove(Go));
    var s3 := s2.(fp := Wait(Suspend, WantLock), child := Child(Running, true, false, false, false),
                  rounds := Rounds(1, 1, 0, false));
    Next(Initial(), s2, FetcherMove(Go));
    var s4 := s3.(child := Child(Stopped, false, true, false, false));
    Next(Initial(), s3, DeliverStop);
    var s5 := s4.(child := Child(Stopped, false, false, false, false), pp := SetState(AtSuspend, LockState));
    Next(Initial(), s4, ParentMove(Collect(StopSig)));
    RunSet(Initial(), s5, AtSuspend);
    RunWait(Initial(), SetDone(s5, AtSuspend), Suspend);
    assert WaitDone(SetDone(s5, AtSuspend), Suspend) == Suspended(bytes);
  }

  /** The sinks are off and the fetch of the round is next. */
  function SinksOffed(bytes: seq<byte>): State {
    Suspended(bytes).(collecting := false, fp := FetchLock(false))
  }

  lemma RunSinksOff(bytes: seq<byte>)
    ensures Reachable(SinksOffed(bytes))
  {
    RunSuspended(bytes);
    var s0 := Suspended(bytes);
    var s1 := s0.(locks := s0.locks.(trace := ByFetcher), fp := SinksOffTry(0));
    Next(Initial(), s0, FetcherMove(Go));
    var s2 := s1.(collecting := false, fp := SinksOffUnlock(true));
    Next(Initial(), s1, FetcherMove(Go));
    Next(Initial(), s2, FetcherMove(Go));
  }

  lemma RunRound(bytes: seq<byte>)
    ensures Reachable(AfterRound(bytes))
  {
    RunSinksOff(bytes);
    RunFetch(Initial(), SinksOffed(bytes), false);
    var s4 := FetchDone(SinksOffed(bytes), false);
    Next(Initial(), s4, FetcherMove(Go));
    var s5 := s4.(locks := s4.locks.(trace := ByFetcher), fp := SinksOnWork);
    Next(Initial(), s5, FetcherMove(Go));
    var s6 := s5.(collecting := true, fp := SinksOnUnlock(true));
    Next(Initial(), s6, FetcherMove(Go));
    var s7 := s4.(collecting := true, fp := SendCont);
    Next(Initial(), s7, FetcherMove(Go));
    assert [] + [Fetched(bytes)] + [Dropped([])] == [Fetched(bytes)] + [Dropped([])];
    assert FetcherStep(s7, Go) == AfterRound(bytes);
  }

  /** A failed mremap in a round ends in `goto exit`. */
  lemma AbortedSession(bytes: seq<byte>)
    ensures exists s :: Reachable(s) && s.rounds.aborted && s.hist.produced == bytes
  {
    RunSinksOff(bytes);
    var s0 := SinksOffed(bytes);
    var s1 := s0.(locks := s0.locks.(trace := ByFetcher), fp := FetchRoom(false));
    Next(Initial(), s0, FetcherMove(Go));
    var s2 := s1.(host := Append(s1.host, []), fp := FetchUnlock(false, false),
                  hist := Logged(s1.hist, Fetched([])));
    Next(Initial(), s1, FetcherMove(Fail(false)));
    Next(Initial(), s2, FetcherMove(Go));
  }

  /** The child exits with another status, and the parent has collected it. */
  lemma UncleanSession(bytes: seq<byte>)
    ensures exists s :: Reachable(s) && s.child.status == Reaped(false) && s.hist.produced == bytes
  {
    RunComparing();
    var s0 := Comparing();
    var s1 := s0.(etb := bytes, hist := s0.hist.(produced := bytes));
    Next(Initial(), s0, Produce(bytes));
    assert [] + bytes == bytes;
    var s2 := s1.(child := s1.child.(status := Zombie(false)));
    Next(Initial(), s1, ChildExit(false));
    Next(Initial(), s2, ParentMove(Collect(Exited)));
  }

  /** WIFCONTINUED is collected and nothing else happens: the trace stays suspended, the fetcher waiting. */
  lemma ContinuedIgnored(bytes: seq<byte>)
    ensures exists u, s ::
      && Reachable(u) && Can(u, ParentMove(Collect(Continued))) && s == Step(u, ParentMove(Collect(Continued)))
      && s.pp == WaitChild && s.child == u.child.(contReport := false) && s.child.status == Running
      && s.trace == SuspendedState && s.event == SuspendEvent && PhaseOf(s.fp).AskedCont?
  {
    RunRound(bytes);
    var u := AfterRound(bytes);
    assert Can(u, ParentMove(Collect(Continued)));
    assert Step(u, ParentMove(Collect(Continued))) == u.(child := u.child.(contReport := false));
  }

  /** The resume event is in the slot and the fetcher has not looked. */
  function ResumeSignalled(bytes: seq<byte>): State {
    var s := AfterRound(bytes);
    s.(trace := RunningState, event := ResumeEvent, child := s.child.(contStop := false))
  }

  lemma RunResumeSignalled(bytes: seq<byte>)
    ensures Reachable(ResumeSignalled(bytes))
  {
    RunRound(bytes);
    var s0 := AfterRound(bytes);
    var s1 := s0.(child := s0.child.(contStop := false), pp := SetState(AtResume, LockState));
    Next(Initial(), s0, ParentMove(Collect(ContStopSig)));
    RunSet(Initial(), s1, AtResume);
    assert SetDone(s1, AtResume) == ResumeSignalled(bytes);
  }

  /**
    The resume event may come and still be lost: the stop and fini events can overwrite it before
    the fetcher looks, and the join then never returns.
  */
  lemma StuckAfterCont(bytes: seq<byte>)
    ensures exists u, s ::
      && Reachable(u) && u.event == ResumeEvent && PhaseOf(u.fp).AskedCont? && u.hist.produced == bytes
      && Leads(u, s) && s.pp == Join && PhaseOf(s.fp).AskedCont?
  {
    RunResumeSignalled(bytes);
    var u := ResumeSignalled(bytes);
    assert Runs(u, []) && After(u, []) == u;
    var s1 := u.(child := u.child.(status := Zombie(true)));
    Next(u, u, ChildExit(true));
    RunEnding(u, s1);
    assert PhaseOf(Ending(s1).fp).AskedCont?;
  }

  /** Resumed, and the child has run to its end after producing `more`. */
  function Resumed(bytes: seq<byte>, more: seq<byte>): State {
    var s := AfterRound(bytes);
    s.(fp := Nap, trace := RunningState, event := ResumeEvent, etb := more,
       child := Child(Zombie(true), false, false, true, false),
       hist := s.hist.(produced := bytes + more))
  }

  /** The resume event has been signalled and seen. */
  function Woken(bytes: seq<byte>): State {
    var s := AfterRound(bytes);
    s.(fp := ReadAgain, trace := RunningState, event := ResumeEvent,
       child := Child(Running, false, false, true, false))
  }

  lemma RunWoken(bytes: seq<byte>)
    ensures Reachable(Woken(bytes))
  {
    RunResumeSignalled(bytes);
    RunWait(Initial(), ResumeSignalled(bytes), Resume);
    assert WaitDone(ResumeSignalled(bytes), Resume) == Woken(bytes);
  }

  lemma RunResumed(bytes: seq<byte>, more: seq<byte>)
    ensures Reachable(Resumed(bytes, more))
  {
    RunWoken(bytes);
    var s3 := Woken(bytes);
    Next(Initial(), s3, FetcherMove(Go));
    var s4 := s3.(fp := Nap);
    Next(Initial(), s4, Produce(more));
    assert [] + more == more;
    Next(Initial(), Step(s4, Produce(more)), ChildExit(true));
  }

  /** From the last fetch's end to the worker's: hand back fetcher_ready, see the fini event. */
  lemma RunExit(u: State, s: State)
    requires Leads(u, s) && NoLocks(s) && s.fp == ExitLock && s.event == FiniEvent
    ensures Leads(u, s.(fp := Done))
  {
    Next(u, s, FetcherMove(Go));
    var s1 := s.(locks := s.locks.(fetcher := ByFetcher), fp := ExitMark);
    Next(u, s1, FetcherMove(Go));
    var s2 := s1.(fp := ExitBroadcast);
    Next(u, s2, FetcherMove(Go));
    var s3 := s2.(fp := ExitUnlock);
    Next(u, s3, FetcherMove(Go));
    RunWait(u, s.(fp := Wait(StartOrFini, WantLock)), StartOrFini);
  }

  lemma RunExport(u: State, s: State)
    requires Leads(u, s) && s.fp == Done && s.pp == Join
    ensures Leads(u, s.(pp := Finished, hist := s.hist.(exported := Some(UpTo(s.host, s.back)))))
  {
    Next(u, s, ParentMove(Go));
    Next(u, s.(pp := Export), ParentMove(Go));
  }

  /** One round, then the child's end; the parent is in pthread_join and the last fetch is next. */
  function BeforeLast(bytes: seq<byte>, more: seq<byte>): State {
    Ending(Resumed(bytes, more)).(fp := FetchLock(true))
  }

  lemma RunBeforeLast(bytes: seq<byte>, more: seq<byte>)
    ensures Reachable(BeforeLast(bytes, more))
    ensures
      var s := BeforeLast(bytes, more);
      && NoLocks(s) && s.fp == FetchLock(true) && s.pp == Join && s.event == FiniEvent && s.etb == more
      && s.rounds == Rounds(1, 1, 1, false) && s.host == Append([], bytes) && s.hist.produced == bytes + more
  {
    RunResumed(bytes, more);
    RunEnding(Initial(), Resumed(bytes, more));
    var s0 := Ending(Resumed(bytes, more));
    Next(Initial(), s0, FetcherMove(Go));
    Next(Initial(), s0.(fp := Probe), FetcherMove(Go));
    var s2 := s0.(fp := Wait(StopOrFini, WantLock));
    RunWait(Initial(), s2, StopOrFini);
    assert WaitDone(s2, StopOrFini) == BeforeLast(bytes, more);
  }

  // ---------------------------------------------------------------- short and failed reads

  /** The child has produced `bytes` and ended while the fetcher compared; the last fetch is next. */
  function Joining(bytes: seq<byte>): State {
    var s := Comparing();
    Ending(s.(etb := bytes, hist := s.hist.(produced := bytes),
              child := s.child.(status := Zombie(true)))).(fp := FetchLock(true))
  }

  lemma RunJoining(bytes: seq<byte>)
    ensures Reachable(Joining(bytes))
  {
    RunComparing();
    var s0 := Comparing();
    var s1 := s0.(etb := bytes, hist := s0.hist.(produced := bytes));
    Next(Initial(), s0, Produce(bytes));
    assert [] + bytes == bytes;
    var s2 := s1.(child := s1.child.(status := Zombie(true)));
    Next(Initial(), s1, ChildExit(true));
    RunEnding(Initial(), s2);
    RunToLastFetch(Ending(s2));
  }

  lemma RunToLastFetch(s: State)
    requires Reachable(s) && NoLocks(s) && s.fp == Compare && s.child.status.Reaped? && s.event == FiniEvent
    ensures Reachable(s.(fp := FetchLock(true)))
  {
    Next(Initial(), s, FetcherMove(Below));
    Next(Initial(), s.(fp := Nap), FetcherMove(Go));
    Next(Initial(), s.(fp := Probe), FetcherMove(Go));
    var w := s.(fp := Wait(StopOrFini, WantLock));
    RunWait(Initial(), w, StopOrFini);
    assert WaitDone(w, StopOrFini) == s.(fp := FetchLock(true));
  }

  /** The last fetch with any read: it took `c`, left the cursor `back` before the end, emptied the ETB. */
  function LastRead(s: State, c: seq<byte>, rest: seq<byte>, back: nat): State {
    s.(host := Append(s.host, c), back := back, etb := [], fp := ExitLock,
       hist := s.hist.(log := s.hist.log + [Fetched(c)] + [Dropped(rest)], lastFetch := Some(true)))
  }

  /** The read is done, the ETB not yet reset. */
  function LastReadDone(s: State, c: seq<byte>, rest: seq<byte>, back: nat): State {
    s.(host := Append(s.host, c), back := back, etb := rest, locks := s.locks.(trace := ByFetcher),
       fp := FetchEmpty(true), hist := Logged(s.hist, Fetched(c)))
  }

  lemma RunLastReadDone(s: State, m: Move, c: seq<byte>, rest: seq<byte>, back: nat)
    requires Reachable(s) && NoLocks(s) && s.fp == FetchLock(true) && s.etb == c + rest
    requires if m.Take? then m.n == |c| && back == 0 else m == Misread(back) && c == [] && 0 < back < 8
    ensures Reachable(LastReadDone(s, c, rest, back))
  {
    var s1 := s.(locks := s.locks.(trace := ByFetcher), fp := FetchRoom(true));
    Next(Initial(), s, FetcherMove(Go));
    var s2 := s1.(fp := FetchRead(true));
    Next(Initial(), s1, FetcherMove(Go));
    assert s.etb[..|c|] == c && s.etb[|c|..] == rest && [] + rest == rest;
    Next(Initial(), s2, FetcherMove(m));
  }

  lemma RunLastRead(s: State, m: Move, c: seq<byte>, rest: seq<byte>, back: nat)
    requires Reachable(s) && NoLocks(s) && s.fp == FetchLock(true) && s.etb == c + rest
    requires if m.Take? then m.n == |c| && back == 0 else m == Misread(back) && c == [] && 0 < back < 8
    ensures Reachable(LastRead(s, c, rest, back))
  {
    RunLastReadDone(s, m, c, rest, back);
    var s3 := LastReadDone(s, c, rest, back);
    var s4 := s3.(etb := [], fp := FetchUnlock(true, true), hist := Logged(s3.hist, Dropped(rest)));
    Next(Initial(), s3, FetcherMove(Go));
    Next(Initial(), s4, FetcherMove(Go));
  }

  /** A session from its last fetch on: it exports what the buffer holds below the cursor. */
  lemma RunToExport(s: State, m: Move, c: seq<byte>, rest: seq<byte>, back: nat) returns (t: State)
    requires Reachable(s) && NoLocks(s) && s.fp == FetchLock(true) && s.etb == c + rest
    requires s.event == FiniEvent && s.pp == Join
    requires if m.Take? then m.n == |c| && back == 0 else m == Misread(back) && c == [] && 0 < back < 8
    ensures Reachable(t) && t.pp == Finished && t.rounds == s.rounds && t.hist.produced == s.hist.produced
    ensures t.hist.lastFetch == Some(true) && t.hist.exported == Some(UpTo(Append(s.host, c), back))
  {
    RunLastRead(s, m, c, rest, back);
    var l := LastRead(s, c, rest, back);
    RunExit(Initial(), l);
    RunExport(Initial(), l.(fp := Done));
    t := l.(fp := Done, pp := Finished, hist := l.hist.(exported := Some(UpTo(l.host, l.back))));
  }

  /** A short read: the rest is dropped, and the file holds what the read returned. */
  lemma ShortRead(bytes: seq<byte>, n: nat)
    requires n <= |bytes|
    ensures exists t ::
      && Reachable(t) && t.pp == Finished && t.rounds.polls == 1 && t.hist.produced == bytes
      && t.hist.lastFetch == Some(true) && t.hist.exported == Some(File(bytes[..n]))
  {
    RunJoining(bytes);
    PaddedPlain([]);
    assert Append([], bytes[..n]) == bytes[..n] && bytes == bytes[..n] + bytes[n..];
    var t := RunToExport(Joining(bytes), Take(n), bytes[..n], bytes[n..], 0);
  }

  lemma OneChunk(bytes: seq<byte>)
    ensures Append([], bytes) == bytes && bytes + [] == bytes && Append(bytes, []) == Padded(bytes)
  {
    PaddedPlain([]);
    assert Padded([]) + bytes == bytes;
  }

  /** A failed last read after a complete round: the file lacks its last `code` bytes. */
  lemma MisreadExport(bytes: seq<byte>, code: nat)
    requires 0 < code < 8
    ensures exists t ::
      && Reachable(t) && t.pp == Finished && t.rounds.polls == 1 && t.hist.produced == bytes
      && t.hist.lastFetch == Some(true)
      && t.hist.exported == Some(if code <= |Padded(bytes)| then File(Padded(bytes)[..|Padded(bytes)| - code])
                                 else NegativeSize)
  {
    RunBeforeLast(bytes, []);
    OneChunk(bytes);
    var t := RunToExport(BeforeLast(bytes, []), Misread(code), [], [], code);
  }

  /** The only fetch of the session fails with -1: fetch_trace succeeds, and fwrite gets a negative size. */
  lemma NegativeExport()
    ensures exists t ::
      && Reachable(t) && t.pp == Finished && t.hist.lastFetch == Some(true)
      && t.hist.exported == Some(NegativeSize)
  {
    RunJoining([]);
    PaddedPlain([]);
    assert Append([], []) == [];
    var t := RunToExport(Joining([]), Misread(1), [], [], 1);
  }

  /** A session with one round and a last fetch: its file is both chunks, the second aligned. */
  lemma CompleteSession(bytes: seq<byte>, more: seq<byte>)
    ensures exists t ::
      && Reachable(t) && t.pp == Finished && t.rounds == Rounds(1, 1, 1, false)
      && t.hist.produced == bytes + more && t.hist.exported == Some(File(Layout([bytes, more])))
  {
    RunBeforeLast(bytes, more);
    LayoutSnoc([], bytes);
    LayoutSnoc([bytes], more);
    assert [bytes] + [more] == [bytes, more] && [] + [bytes] == [bytes];
    assert more == more + [];
    var t := RunToExport(BeforeLast(bytes, more), Take(|more|), more, [], 0);
  }
}
