/**
  What holds in every run of a trace session, and of every continuation of one.
*/
module ProtocolTheorems {
  import opened Common
  import opened Chunks
  import opened TraceProtocol
  import opened ProtocolInvariant

  // ---------------------------------------------------------------- bytes

  lemma LogSnoc(log: seq<Segment>, g: Segment)
    ensures Segments(log + [g]) == Segments(log) + [g.bytes]
    ensures Flatten(Segments(log + [g])) == Flatten(Segments(log)) + g.bytes
    ensures FetchedChunks(log + [g]) == FetchedChunks(log) + (if g.Fetched? then [g.bytes] else [])
  {
    assert (log + [g])[..|log|] == log;
    LayoutSnoc(Segments(log), g.bytes);
  }

  predicate MovesBytes(s: State, l: Label) {
    l.Produce? || (l.FetcherMove? && (s.fp.FetchRoom? || s.fp.FetchRead? || s.fp.FetchEmpty?))
  }

  predicate SameBytes(s: State, t: State) {
    && t.host == s.host && t.back == s.back && t.etb == s.etb
    && t.hist.log == s.hist.log && t.hist.produced == s.hist.produced
  }

  lemma ParentBytes(s: State, m: Move)
    requires ParentCan(s, m)
    ensures SameBytes(s, ParentStep(s, m))
  {
  }

  lemma RoundBytes(s: State, m: Move)
    requires FetcherCan(s, m) && PhaseOf(s.fp).InRound? && !MovesBytes(s, FetcherMove(m))
    ensures SameBytes(s, FetcherStep(s, m))
  {
  }

  lemma OtherBytes(s: State, m: Move)
    requires FetcherCan(s, m) && !PhaseOf(s.fp).InRound? && !MovesBytes(s, FetcherMove(m))
    ensures SameBytes(s, FetcherStep(s, m))
  {
  }

  lemma BytesUntouched(s: State, l: Label)
    requires Can(s, l) && !MovesBytes(s, l)
    ensures SameBytes(s, Step(s, l))
  {
    match l
    case ParentMove(m) => ParentBytes(s, m);
    case FetcherMove(m) => if PhaseOf(s.fp).InRound? { RoundBytes(s, m); } else { OtherBytes(s, m); }
    case _ =>
  }

  lemma FetchedInv(produced: seq<byte>, log: seq<Segment>, c: seq<byte>, rest: seq<byte>, host: seq<byte>)
    requires ByteInv(produced, log, c + rest, host)
    ensures ByteInv(produced, log + [Fetched(c)], rest, Append(host, c))
  {
    LogSnoc(log, Fetched(c));
    LayoutSnoc(FetchedChunks(log), c);
    assert Flatten(Segments(log)) + (c + rest) == Flatten(Segments(log)) + c + rest;
  }

  lemma DroppedInv(produced: seq<byte>, log: seq<Segment>, etb: seq<byte>, host: seq<byte>)
    requires ByteInv(produced, log, etb, host)
    ensures ByteInv(produced, log + [Dropped(etb)], [], host)
  {
    LogSnoc(log, Dropped(etb));
  }

  lemma ProducedInv(produced: seq<byte>, log: seq<Segment>, etb: seq<byte>, host: seq<byte>, more: seq<byte>)
    requires ByteInv(produced, log, etb, host)
    ensures ByteInv(produced + more, log, etb + more, host)
  {
    assert Flatten(Segments(log)) + etb + more == Flatten(Segments(log)) + (etb + more);
  }

  predicate Bytes(s: State) {
    ByteInv(s.hist.produced, s.hist.log, s.etb, s.host)
  }

  lemma FetchBytes(s: State, m: Move)
    requires Bytes(s) && FetcherCan(s, m) && (s.fp.FetchRoom? || s.fp.FetchRead?)
    ensures Bytes(FetcherStep(s, m))
  {
    var n := if m.Take? then m.n else 0;
    assert s.etb == s.etb[..n] + s.etb[n..];
    assert s.etb[..0] == [] && s.etb[0..] == s.etb;
    FetchedInv(s.hist.produced, s.hist.log, s.etb[..n], s.etb[n..], s.host);
  }

  lemma EmptyBytes(s: State, m: Move)
    requires Bytes(s) && FetcherCan(s, m) && s.fp.FetchEmpty?
    ensures Bytes(FetcherStep(s, m))
  {
    DroppedInv(s.hist.produced, s.hist.log, s.etb, s.host);
  }

  lemma ByteKept(s: State, l: Label)
    requires Bytes(s) && Can(s, l)
    ensures Bytes(Step(s, l))
  {
    if !MovesBytes(s, l) {
      BytesUntouched(s, l);
    } else if l.Produce? {
      ProducedInv(s.hist.produced, s.hist.log, s.etb, s.host, l.bytes);
    } else if s.fp.FetchEmpty? {
      EmptyBytes(s, l.m);
    } else {
      FetchBytes(s, l.m);
    }
  }

  lemma InvKept(s: State, l: Label)
    requires Inv(s) && Can(s, l)
    ensures Inv(Step(s, l))
  {
    CoreKept(s, l);
    ByteKept(s, l);
  }

  // ---------------------------------------------------------------- runs

  lemma {:induction false} InvAlong(s: State, ls: seq<Label>)
    requires Inv(s) && Runs(s, ls)
    ensures Inv(After(s, ls))
    decreases |ls|
  {
    if ls != [] {
      InvKept(s, ls[0]);
      InvAlong(Step(s, ls[0]), ls[1..]);
    }
  }

  lemma InvAlways(s: State)
    requires Reachable(s)
    ensures Inv(s)
  {
    InitialInv();
    var ls :| Runs(Initial(), ls) && After(Initial(), ls) == s;
    InvAlong(Initial(), ls);
  }

  lemma {:induction false} RunsSplit(s: State, a: seq<Label>, b: seq<Label>)
    ensures Runs(s, a + b) <==> Runs(s, a) && Runs(After(s, a), b)
    ensures Runs(s, a + b) ==> After(s, a + b) == After(After(s, a), b)
    decreases |a|
  {
    if a == [] {
      assert a + b == b;
    } else {
      assert (a + b)[0] == a[0] && (a + b)[1..] == a[1..] + b;
      if Can(s, a[0]) {
        RunsSplit(Step(s, a[0]), a[1..], b);
      }
    }
  }

  // ---------------------------------------------------------------- rounds

  /**
    In every interleaving the sinks-off / fetch / sinks-on sequence runs while the child is
    stopped and the trace is suspended, before the parent's full disable, and the suspend event it
    acts on was written in answer to its own SIGSTOP.
  */
  lemma RoundSafety(s: State)
    requires Reachable(s)
    ensures
      PhaseOf(s.fp).InRound? ==>
        && s.child.status == Stopped
        && s.trace == SuspendedState && s.event == SuspendEvent
        && !Late(s.pp) && !s.hist.fullyOff
        && s.rounds.suspends == s.rounds.stopsSent
  {
    InvAlways(s);
  }

  /** The fetcher switches the sinks only while the child is stopped and the trace suspended. */
  lemma SwitchSafety(s: State, m: Move)
    requires Reachable(s) && FetcherCan(s, m)
    ensures FetcherStep(s, m).collecting != s.collecting ==>
      s.child.status == Stopped && s.trace == SuspendedState && !Late(s.pp)
  {
    InvAlways(s);
    assert FetcherStep(s, m).collecting != s.collecting ==> s.fp.SinksOffTry? || s.fp.SinksOnWork?;
  }

  predicate FetchAllowed(s: State) {
    || (!s.collecting && s.child.status == Stopped && s.trace == SuspendedState && !Late(s.pp))
    || (AfterDisable(s.pp) && (s.hist.fullyOff ==> !s.collecting))
  }

  lemma FetchingAllowed(s: State)
    requires Slots(s) && Phases(s) && Sinks(s) && Fetching(s.fp)
    ensures FetchAllowed(s)
  {
  }

  /** The ETB is read only with its sink off in a round, or after the parent's disable. */
  lemma FetchSafety(s: State, m: Move)
    requires Reachable(s) && FetcherCan(s, m)
    ensures FetcherStep(s, m).etb != s.etb || FetcherStep(s, m).host != s.host ==> FetchAllowed(s)
  {
    if MovesBytes(s, FetcherMove(m)) {
      InvAlways(s);
      FetchingAllowed(s);
    } else {
      BytesUntouched(s, FetcherMove(m));
    }
  }

  /** From PTRACE_DETACH to its end the child never runs with the sinks off. */
  lemma NeverRunsUntraced(s: State)
    requires Reachable(s) && s.child.status == Running
    ensures s.collecting
  {
    InvAlways(s);
  }

  /**
    The wait for a suspend event is never satisfied by the event of an earlier round: from a
    successful SIGSTOP to the end of that wait exactly one suspend event is written.
  */
  lemma FreshSuspend(s: State, ls: seq<Label>)
    requires Reachable(s) && s.fp == SendStop && !s.child.status.Reaped?
    requires Runs(s, [FetcherMove(Go)] + ls)
    ensures
      var t := After(s, [FetcherMove(Go)] + ls);
      t.rounds.stopsSent == s.rounds.stopsSent + 1 && t.fp.Wait? && t.fp.goal == Suspend && t.fp.at.Seen?
      ==> t.rounds.suspends == s.rounds.suspends + 1
  {
    InvAlways(s);
    InvAlong(s, [FetcherMove(Go)] + ls);
  }

  // ---------------------------------------------------------------- state and event

  predicate Coherent(t: TraceState, e: TraceEvent) {
    || (t == InitState && e == InitEvent)
    || (t == ReadyState && e == InitEvent)
    || (t == RunningState && e == StartEvent)
    || (t == SuspendedState && e == SuspendEvent)
    || (t == RunningState && e == ResumeEvent)
    || (t == ReadyState && e == StopEvent)
    || (t == FiniState && e == FiniEvent)
  }

  /** Outside the state mutex the pair is one of seven, and the error branch is never taken. */
  lemma StateEventCoherence(s: State)
    requires Reachable(s)
    ensures
      && (s.locks.state == Free ==> Coherent(s.trace, s.event))
      && (s.pp.SetState? && s.pp.at.Dispatch? ==>
            EventFor(s.pp.at.prev, Target(s.pp.site)) == Some(SiteEvent(s.pp.site)))
  {
    InvAlways(s);
  }

  // ---------------------------------------------------------------- locks

  datatype Mutex = StateMutex | EventMutex | TraceMutex | FetcherMutex

  function OwnerOf(m: Mutex, locks: Locks): Owner {
    match m
    case StateMutex => locks.state
    case EventMutex => locks.event
    case TraceMutex => locks.trace
    case FetcherMutex => locks.fetcher
  }

  /** The mutex a thread is blocked on or about to take. */
  function ParentWants(pp: ParentPc): Option<Mutex> {
    match pp
    case SetState(_, LockState) => Some(StateMutex)
    case SetState(_, LockEvent(_)) => Some(EventMutex)
    case EnableLock => Some(TraceMutex)
    case DisableLock => Some(TraceMutex)
    case _ => None
  }

  function FetcherWants(fp: FetcherPc): Option<Mutex> {
    match fp
    case Wait(_, WantLock) => Some(EventMutex)
    case SinksOffLock => Some(TraceMutex)
    case FetchLock(_) => Some(TraceMutex)
    case SinksOnLock => Some(TraceMutex)
    case ExitLock => Some(FetcherMutex)
    case _ => None
  }

  /** The only nesting is state mutex then event mutex, by the parent. */
  lemma LockNesting(s: State)
    requires Reachable(s)
    ensures forall m, n | OwnerOf(m, s.locks) == OwnerOf(n, s.locks) == ByParent && m != n ::
      {m, n} == {StateMutex, EventMutex}
    ensures forall m, n | OwnerOf(m, s.locks) == OwnerOf(n, s.locks) == ByFetcher :: m == n
    ensures ParentWants(s.pp).Some? ==>
      forall m | OwnerOf(m, s.locks) == ByParent :: m == StateMutex && ParentWants(s.pp) == Some(EventMutex)
  {
    InvAlways(s);
    assert Mutexes(s);
  }

  lemma FetcherBare(s: State)
    requires Mutexes(s) && (FetcherWants(s.fp).Some? || s.fp.Done? || (s.fp.Wait? && s.fp.at.Asleep?))
    ensures forall m :: OwnerOf(m, s.locks) != ByFetcher
  {
  }

  lemma ParentBare(s: State)
    requires Mutexes(s) && (s.pp.WaitChild? || s.pp.Join? || s.pp.Export? || s.pp.Finished?)
    ensures forall m :: OwnerOf(m, s.locks) != ByParent
  {
  }

  /** A thread that wants a mutex from outside, sleeps on the condition or has ended holds nothing. */
  lemma NothingHeld(s: State)
    requires Reachable(s)
    ensures FetcherWants(s.fp).Some? || s.fp.Done? || (s.fp.Wait? && s.fp.at.Asleep?) ==>
      forall m :: OwnerOf(m, s.locks) != ByFetcher
    ensures s.pp.WaitChild? || s.pp.Join? || s.pp.Export? || s.pp.Finished? ==>
      forall m :: OwnerOf(m, s.locks) != ByParent
  {
    InvAlways(s);
    if FetcherWants(s.fp).Some? || s.fp.Done? || (s.fp.Wait? && s.fp.at.Asleep?) { FetcherBare(s); }
    if s.pp.WaitChild? || s.pp.Join? || s.pp.Export? || s.pp.Finished? { ParentBare(s); }
  }

  lemma FetcherReleases(s: State)
    requires Mutexes(s) && Born(s) && ParentWants(s.pp).Some? && OwnerOf(ParentWants(s.pp).value, s.locks) == ByFetcher
    ensures FetcherCan(s, if s.fp.FetchRead? then Take(0) else Go)
  {
  }

  lemma ParentReleases(s: State)
    requires Mutexes(s) && FetcherWants(s.fp).Some? && OwnerOf(FetcherWants(s.fp).value, s.locks) == ByParent
    ensures ParentCan(s, Go)
  {
  }

  /** No deadlock on mutexes: whoever holds a mutex the other thread wants can take a step itself. */
  lemma HolderMoves(s: State)
    requires Reachable(s)
    ensures
      && (ParentWants(s.pp).Some? && OwnerOf(ParentWants(s.pp).value, s.locks) == ByFetcher ==>
            exists m :: FetcherCan(s, m))
      && (FetcherWants(s.fp).Some? && OwnerOf(FetcherWants(s.fp).value, s.locks) == ByParent ==>
            exists m :: ParentCan(s, m))
  {
    InvAlways(s);
    if ParentWants(s.pp).Some? && OwnerOf(ParentWants(s.pp).value, s.locks) == ByFetcher {
      FetcherReleases(s);
    }
    if FetcherWants(s.fp).Some? && OwnerOf(FetcherWants(s.fp).value, s.locks) == ByParent {
      ParentReleases(s);
    }
  }

  /** A sleeper whose event is in the slot has been notified, or the broadcast is the parent's next step. */
  lemma NoLostWakeup(s: State)
    requires Reachable(s)
    ensures
      s.fp.Wait? && s.fp.at.Asleep? && Met(s.fp.goal, s.event) ==>
        s.fp.at.notified || (s.pp.SetState? && s.pp.at.Broadcast?)
  {
    InvAlways(s);
  }

  // ---------------------------------------------------------------- termination of the fetcher

  /** The two waits that a fini event never ends. */
  predicate Stuck(fp: FetcherPc) {
    PhaseOf(fp).AskedStop? || PhaseOf(fp).AskedCont?
  }

  /** An upper bound on the fetcher's remaining steps once the fini event is in the slot. */
  function Remaining(fp: FetcherPc): nat {
    match fp
    case Done => 0
    case Wait(StartOrFini, at) => WaitRemaining(at)
    case ExitUnlock => 4
    case ExitBroadcast => 5
    case ExitMark => 6
    case ExitLock => 7
    case FetchUnlock(_, _) => 8
    case FetchEmpty(_) => 9
    case FetchRead(_) => 10
    case FetchRoom(_) => 11
    case FetchLock(_) => 12
    case Wait(_, at) => 12 + WaitRemaining(at)
    case Probe => 17
    case SendStop => 17
    case Nap => 18
    case ReadStart => 18
    case _ => 19
  }

  function WaitRemaining(at: WaitPc): nat {
    match at
    case Seen(_) => 1
    case Holding => 2
    case WantLock => 3
    case Asleep(_) => 4
  }

  function FetcherSteps(ls: seq<Label>): nat {
    if ls == [] then 0 else (if ls[0].FetcherMove? then 1 else 0) + FetcherSteps(ls[1..])
  }

  lemma FiniParent(s: State, m: Move)
    requires Slots(s) && Children(s) && Phases(s) && ParentCan(s, m) && s.event == FiniEvent
    ensures ParentStep(s, m).event == FiniEvent
  {
  }

  lemma FiniPersists(s: State, l: Label)
    requires Core(s) && Can(s, l) && s.event == FiniEvent
    ensures Step(s, l).event == FiniEvent
  {
    match l
    case ParentMove(m) => FiniParent(s, m);
    case FetcherMove(m) => FetcherFrame(s, m);
    case _ =>
  }

  lemma FiniWaitStep(s: State, m: Move)
    requires Sights(s) && FetcherCan(s, m) && s.event == FiniEvent && !Stuck(s.fp) && s.fp.Wait?
    requires !PhaseOf(s.fp).InRound?
    ensures var t := FetcherStep(s, m); !Stuck(t.fp) && Remaining(t.fp) < Remaining(s.fp)
  {
  }

  /** By then the child is reaped and no round can be under way. */
  lemma FiniFacts(s: State)
    requires Core(s) && s.event == FiniEvent
    ensures s.child.status.Reaped? && !PhaseOf(s.fp).InRound?
  {
  }

  lemma FiniLoopStep(s: State, m: Move)
    requires s.child.status.Reaped? && !PhaseOf(s.fp).InRound? && !s.fp.Wait? && FetcherCan(s, m)
    ensures var t := FetcherStep(s, m); !Stuck(t.fp) && Remaining(t.fp) < Remaining(s.fp)
  {
  }

  lemma FiniFetcherStep(s: State, m: Move)
    requires Core(s) && FetcherCan(s, m) && s.event == FiniEvent && !Stuck(s.fp)
    ensures var t := FetcherStep(s, m); !Stuck(t.fp) && Remaining(t.fp) < Remaining(s.fp)
  {
    FiniFacts(s);
    if s.fp.Wait? { FiniWaitStep(s, m); } else { FiniLoopStep(s, m); }
  }

  lemma FiniOtherStep(s: State, l: Label)
    requires Core(s) && Can(s, l) && s.event == FiniEvent && !Stuck(s.fp) && !l.FetcherMove?
    ensures var t := Step(s, l); !Stuck(t.fp) && Remaining(t.fp) <= Remaining(s.fp)
  {
  }

  lemma StuckFetcher(s: State, m: Move)
    requires FetcherCan(s, m) && s.event == FiniEvent && Stuck(s.fp)
    ensures Stuck(FetcherStep(s, m).fp)
  {
  }

  lemma StuckParent(s: State, m: Move)
    requires Slots(s) && ParentCan(s, m) && s.event == FiniEvent && Stuck(s.fp)
    ensures Stuck(ParentStep(s, m).fp)
  {
  }

  lemma StuckStep(s: State, l: Label)
    requires Core(s) && Can(s, l) && s.event == FiniEvent && Stuck(s.fp)
    ensures Stuck(Step(s, l).fp)
  {
    match l
    case ParentMove(m) => StuckParent(s, m);
    case FetcherMove(m) => StuckFetcher(s, m);
    case _ =>
  }

  lemma {:induction false} FiniBound(s: State, ls: seq<Label>)
    requires Inv(s) && s.event == FiniEvent && Runs(s, ls)
    ensures After(s, ls).event == FiniEvent
    ensures !Stuck(s.fp) ==>
      !Stuck(After(s, ls).fp) && FetcherSteps(ls) + Remaining(After(s, ls).fp) <= Remaining(s.fp)
    ensures Stuck(s.fp) ==> Stuck(After(s, ls).fp)
    decreases |ls|
  {
    if ls != [] {
      var l := ls[0];
      InvKept(s, l);
      FiniPersists(s, l);
      if Stuck(s.fp) {
        StuckStep(s, l);
      } else if l.FetcherMove? {
        FiniFetcherStep(s, l.m);
      } else {
        FiniOtherStep(s, l);
      }
      FiniBound(Step(s, l), ls[1..]);
    }
  }

  lemma RemainingBound(fp: FetcherPc)
    ensures Remaining(fp) <= 19
  {
  }

  /**
    Once the fini event is signalled, in every continuation a fetcher outside the two waits takes
    at most 19 more steps and stays outside; one inside never gets out.
  */
  lemma FetcherFinishes(s: State, ls: seq<Label>)
    requires Reachable(s) && s.event == FiniEvent && Runs(s, ls)
    ensures !Stuck(s.fp) ==> FetcherSteps(ls) <= 19 && !Stuck(After(s, ls).fp)
    ensures Stuck(s.fp) ==> Stuck(After(s, ls).fp)
  {
    InvAlways(s);
    FiniBound(s, ls);
    RemainingBound(s.fp);
  }

  // ---------------------------------------------------------------- bytes and export

  /**
    Byte conservation: what the hardware produced is, in order, the fetched chunks interleaved
    with the remainders that short reads dropped, followed by what is still in the ETB; and the
    host buffer is the fetched chunks laid out at multiples of eight.
  */
  lemma ByteConservation(s: State)
    requires Reachable(s)
    ensures
      && s.hist.produced == Flatten(Segments(s.hist.log)) + s.etb
      && s.host == Layout(FetchedChunks(s.hist.log))
      && (NothingDropped(s.hist.log) ==> s.hist.produced == Flatten(FetchedChunks(s.hist.log)) + s.etb)
  {
    InvAlways(s);
    if NothingDropped(s.hist.log) {
      DropFree(s.hist.log);
    }
  }

  lemma {:induction false} DropFree(log: seq<Segment>)
    requires NothingDropped(log)
    ensures Flatten(Segments(log)) == Flatten(FetchedChunks(log))
    decreases |log|
  {
    if log != [] {
      var n := |log| - 1;
      assert log == log[..n] + [log[n]];
      DropFree(log[..n]);
      LogSnoc(log[..n], log[n]);
      if log[n].Fetched? {
        LayoutSnoc(FetchedChunks(log[..n]), log[n].bytes);
      }
    }
  }

  /**
    When the export runs, the fetcher has ended for good, and either it never saw the start event
    and the file is empty, or it polled exactly once, ended no round by an error, and its last
    fetch came after the full disable.
  */
  lemma ExportDichotomy(s: State)
    requires Reachable(s)
    requires s.pp.Export? || s.pp.Finished?
    ensures
      && s.fp == Done && !s.rounds.aborted
      && (s.rounds.polls == 0 ==> s.host == [] && s.back == 0 && s.hist.log == [])
      && (s.rounds.polls != 0 ==> s.rounds.polls == 1 && s.hist.lastFetch.Some?)
      && (s.rounds.polls == 1 && s.hist.fullyOff && s.hist.lastFetch == Some(true) ==>
            s.etb == [] && !s.collecting)
      && (s.pp.Finished? ==> s.hist.exported == Some(UpTo(s.host, s.back)))
  {
    InvAlways(s);
  }

  /**
    End to end: with complete reads of whole eight-byte words the export is exactly what was
    produced, short only of what a failed last read took back.
  */
  lemma ExportComplete(s: State)
    requires Reachable(s)
    ensures
      && s.pp.Finished? && s.rounds.polls == 1
      && s.hist.fullyOff && s.hist.lastFetch == Some(true) && NothingDropped(s.hist.log)
      ==> && s.hist.produced == Flatten(FetchedChunks(s.hist.log))
          && ((forall c | c in FetchedChunks(s.hist.log) :: |c| % 8 == 0) ==>
                s.hist.exported == Some(UpTo(s.hist.produced, s.back)))
  {
    if s.pp.Finished? && s.rounds.polls == 1 && s.hist.fullyOff && s.hist.lastFetch == Some(true)
       && NothingDropped(s.hist.log) {
      ExportDichotomy(s);
      ByteConservation(s);
      if forall c | c in FetchedChunks(s.hist.log) :: |c| % 8 == 0 {
        MultiplesOfEight(FetchedChunks(s.hist.log));
      }
    }
  }

  /** The last fetch starts only after the parent's disable has ended, and polling is entered at most once. */
  lemma LastFetchAfterDisable(s: State)
    requires Reachable(s)
    ensures
      && s.rounds.polls <= 1
      && (PhaseOf(s.fp).Closing? ==> AfterDisable(s.pp) && (s.hist.fullyOff ==> !s.collecting))
  {
    InvAlways(s);
  }
}
