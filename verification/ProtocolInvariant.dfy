/**
  The inductive invariant of the trace session. It ties the mutex owners, the state/event pair and
  the child to the two program counters; every label from every state satisfying it keeps it.
*/
module ProtocolInvariant {
  import opened Common
  import opened Chunks
  import opened TraceProtocol

  // ---------------------------------------------------------------- mutexes

  predicate ParentHoldsState(pp: ParentPc) {
    pp.SetState? && !pp.at.LockState?
  }

  predicate ParentHoldsEvent(pp: ParentPc) {
    pp.SetState? && (pp.at.WriteEvent? || pp.at.Broadcast? || pp.at.UnlockEvent?)
  }

  predicate ParentHoldsTrace(pp: ParentPc) {
    pp.EnableWork? || pp.EnableUnlock? || pp.DisableTry? || pp.DisableUnlock?
  }

  predicate FetcherHoldsEvent(fp: FetcherPc) {
    fp.Wait? && (fp.at.Holding? || fp.at.Seen?)
  }

  predicate FetcherHoldsTrace(fp: FetcherPc) {
    || fp.SinksOffTry? || fp.SinksOffUnlock? || fp.SinksOnWork? || fp.SinksOnUnlock?
    || fp.FetchRoom? || fp.FetchRead? || fp.FetchEmpty? || fp.FetchUnlock?
  }

  predicate FetcherHoldsOwn(fp: FetcherPc) {
    fp.ExitMark? || fp.ExitBroadcast? || fp.ExitUnlock?
  }

  predicate Owned(m: Owner, parent: bool, fetcher: bool) {
    && !(parent && fetcher)
    && m == (if parent then ByParent else if fetcher then ByFetcher else Free)
  }

  /** Every mutex is held by exactly the thread whose program counter is inside its section. */
  predicate MutexInv(m: Locks, pp: ParentPc, fp: FetcherPc) {
    && Owned(m.state, ParentHoldsState(pp), false)
    && Owned(m.event, ParentHoldsEvent(pp), FetcherHoldsEvent(fp))
    && Owned(m.trace, ParentHoldsTrace(pp), FetcherHoldsTrace(fp))
    && Owned(m.fetcher, false, FetcherHoldsOwn(fp))
  }

  // ---------------------------------------------------------------- state and event

  /** The event each call site means to signal. */
  function SiteEvent(site: Site): TraceEvent {
    match site
    case AtReady => InitEvent
    case AtStart => StartEvent
    case AtSuspend => SuspendEvent
    case AtResume => ResumeEvent
    case AtStop => StopEvent
    case AtFini => FiniEvent
  }

  predicate LoopPair(t: TraceState, e: TraceEvent) {
    || (t == RunningState && (e == StartEvent || e == ResumeEvent))
    || (t == SuspendedState && e == SuspendEvent)
  }

  /** The pairs (trace_state, trace_event) from which the parent may enter `site`. */
  predicate EntryPair(site: Site, t: TraceState, e: TraceEvent) {
    match site
    case AtReady => t == InitState && e == InitEvent
    case AtStart => t == ReadyState && e == InitEvent
    case AtSuspend => t == RunningState && (e == StartEvent || e == ResumeEvent)
    case AtResume => t == SuspendedState && e == SuspendEvent
    case AtStop => LoopPair(t, e)
    case AtFini => LoopPair(t, e) || (t == ReadyState && e == StopEvent)
  }

  predicate SetPair(site: Site, at: SetPc, t: TraceState, e: TraceEvent) {
    match at
    case LockState => EntryPair(site, t, e)
    case WriteState => EntryPair(site, t, e)
    case Dispatch(prev) => t == Target(site) && EntryPair(site, prev, e)
    case LockEvent(f) => t == Target(site) && f == SiteEvent(site) && OldEvent(site, e)
    case WriteEvent(f) => t == Target(site) && f == SiteEvent(site) && OldEvent(site, e)
    case Broadcast => t == Target(site) && e == SiteEvent(site)
    case UnlockEvent => t == Target(site) && e == SiteEvent(site)
    case UnlockState => t == Target(site) && e == SiteEvent(site)
  }

  /** What the slot may still hold when the parent is about to overwrite it. */
  predicate OldEvent(site: Site, e: TraceEvent) {
    match site
    case AtReady => e == InitEvent
    case AtStart => e == InitEvent
    case AtSuspend => e == StartEvent || e == ResumeEvent
    case AtResume => e == SuspendEvent
    case AtStop => e == StartEvent || e == ResumeEvent || e == SuspendEvent
    case AtFini => e == StartEvent || e == ResumeEvent || e == SuspendEvent || e == StopEvent
  }

  predicate SlotInv(pp: ParentPc, t: TraceState, e: TraceEvent) {
    match pp
    case CreateFetcher => t == InitState && e == InitEvent
    case SetState(site, at) => SetPair(site, at, t, e)
    case EnableLock => t == ReadyState && e == InitEvent
    case EnableWork => t == ReadyState && e == InitEvent
    case EnableUnlock => t == ReadyState && e == InitEvent
    case Detach => t == RunningState && e == StartEvent
    case WaitChild => LoopPair(t, e)
    case DisableLock => LoopPair(t, e)
    case DisableTry(_) => LoopPair(t, e)
    case DisableUnlock(_) => LoopPair(t, e)
    case _ => t == FiniState && e == FiniEvent
  }

  // ---------------------------------------------------------------- the child

  predicate Early(pp: ParentPc) {
    || pp.CreateFetcher? || pp.EnableLock? || pp.EnableWork? || pp.EnableUnlock? || pp.Detach?
    || (pp.SetState? && (pp.site == AtReady || pp.site == AtStart))
  }

  /** From the moment the parent has collected exit status 0. */
  predicate Late(pp: ParentPc) {
    || pp.DisableLock? || pp.DisableTry? || pp.DisableUnlock? || pp.Join? || pp.Export? || pp.Finished?
    || (pp.SetState? && (pp.site == AtStop || pp.site == AtFini))
  }

  predicate InSuspend(pp: ParentPc) {
    pp.SetState? && pp.site == AtSuspend
  }

  predicate InResume(pp: ParentPc) {
    pp.SetState? && pp.site == AtResume
  }

  predicate Unlocking(pp: ParentPc) {
    pp.SetState? ==> pp.at.UnlockState?
  }

  predicate ChildInv(pp: ParentPc, c: Child) {
    && (Early(pp) <==> c.status == Held)
    && (Late(pp) <==> c.status == Reaped(true))
    && (c.stopPending ==> c.status == Held || c.status == Running)
    && (c.stopReport ==> c.status == Stopped)
    && (InSuspend(pp) && !Unlocking(pp) ==> c.status == Stopped && !c.stopReport)
    && (c.contStop ==> c.status == Running || c.status.Zombie?)
    && (c.contReport ==> !c.status.Reaped?)
    && (InSuspend(pp) || InResume(pp) ==> !c.status.Reaped?)
  }

  // ---------------------------------------------------------------- the fetcher

  predicate Fetching(fp: FetcherPc) {
    fp.FetchLock? || fp.FetchRoom? || fp.FetchRead? || fp.FetchEmpty? || fp.FetchUnlock?
  }

  /** Where the fetcher is in its conversation with the child. */
  datatype Phase =
    | Idle        // not created, waiting for a start or a fini event, or done
    | Polling     // in the polling loop, no request to the child outstanding
    | AskedStop   // between a successful kill(SIGSTOP) and the end of the suspend wait
    | InRound     // from there to kill(SIGCONT)
    | AskedCont   // between a successful kill(SIGCONT) and the end of the resume wait
    | Closing     // the fetch after the loop
    | Leaving     // handing back fetcher_ready

  function PhaseOf(fp: FetcherPc): Phase {
    match fp
    case NotCreated => Idle
    case Done => Idle
    case Wait(goal, at) =>
      (match goal
       case StartOrFini => Idle
       case Suspend => if at.Seen? then InRound else AskedStop
       case Resume => if at.Seen? then Polling else AskedCont
       case StopOrFini => if at.Seen? then Closing else Polling)
    case ReadStart => Polling
    case Probe => Polling
    case Compare => Polling
    case SendStop => Polling
    case ReadAgain => Polling
    case Nap => Polling
    case FetchLock(last) => if last then Closing else InRound
    case FetchRoom(last) => if last then Closing else InRound
    case FetchRead(last) => if last then Closing else InRound
    case FetchEmpty(last) => if last then Closing else InRound
    case FetchUnlock(last, _) => if last then Closing else InRound
    case ExitLock => Leaving
    case ExitMark => Leaving
    case ExitBroadcast => Leaving
    case ExitUnlock => Leaving
    case _ => InRound
  }

  /** No stop or continue is outstanding anywhere between the fetcher, the kernel and the parent. */
  predicate Quiet(pp: ParentPc, c: Child, e: TraceEvent, r: Rounds) {
    && !c.stopPending && !c.stopReport && !c.contStop && c.status != Stopped
    && !InSuspend(pp) && (InResume(pp) ==> Unlocking(pp))
    && e != SuspendEvent
    && r.suspends == r.stopsSent
  }

  /** The child is stopped, and the suspend event in the slot answers the last SIGSTOP. */
  predicate Answered(pp: ParentPc, c: Child, e: TraceEvent, r: Rounds) {
    && c.status == Stopped && !c.stopPending && !c.stopReport && !c.contStop
    && e == SuspendEvent
    && (pp == WaitChild || pp == SetState(AtSuspend, UnlockState))
    && r.suspends == r.stopsSent
  }

  predicate StopOutstanding(pp: ParentPc, c: Child, e: TraceEvent, r: Rounds) {
    && !c.contStop
    && (InResume(pp) ==> Unlocking(pp))
    && (e == SuspendEvent ==>
          c.status == Stopped && !c.stopReport && (InSuspend(pp) || pp == WaitChild))
    && r.stopsSent == r.suspends + (if e == SuspendEvent then 0 else 1)
    && (InSuspend(pp) ==> c.status == Stopped && !c.stopReport)
    && (match c.status
        case Held => c.stopPending
        case Running => c.stopPending
        case Stopped => c.stopReport || InSuspend(pp) || e == SuspendEvent
        case _ => true)
  }

  predicate ContOutstanding(pp: ParentPc, c: Child, e: TraceEvent, r: Rounds) {
    && !c.stopPending && !c.stopReport
    && c.status != Stopped && c.status != Held
    && (InSuspend(pp) ==> Unlocking(pp) && c.contStop)
    && (c.contStop ==> e == SuspendEvent && (pp == WaitChild || InSuspend(pp)))
    && r.suspends == r.stopsSent
  }

  predicate Ended(e: TraceEvent) {
    e == StopEvent || e == FiniEvent
  }

  predicate PhaseInv(ph: Phase, pp: ParentPc, c: Child, e: TraceEvent, r: Rounds) {
    match ph
    case Idle =>
      if r.aborted then Answered(pp, c, e, r)
      else Quiet(pp, c, e, r) && (if r.polls == 0 then e != ResumeEvent else Ended(e))
    case Polling => Quiet(pp, c, e, r)
    case AskedStop => StopOutstanding(pp, c, e, r)
    case InRound => Answered(pp, c, e, r)
    case AskedCont => ContOutstanding(pp, c, e, r)
    case Closing => Quiet(pp, c, e, r) && Ended(e)
    case Leaving => if r.aborted then Answered(pp, c, e, r) else Quiet(pp, c, e, r) && Ended(e)
  }

  predicate CountInv(ph: Phase, e: TraceEvent, r: Rounds) {
    && (r.polls == 0 || r.polls == 1)
    && (r.polls == 0 ==> ph.Idle? && !r.aborted)
    && (r.polls == 1 ==> e != InitEvent)
    && (r.aborted ==> ph.Idle? || ph.Leaving?)
  }

  predicate SlotSeen(fp: FetcherPc, e: TraceEvent) {
    && (fp.Wait? && fp.at.Seen? ==> fp.at.event == e && Met(fp.goal, e))
    && (fp.Done? ==> e == FiniEvent)
  }

  /** Nobody sleeps through a broadcast. */
  predicate WakeInv(pp: ParentPc, fp: FetcherPc, e: TraceEvent) {
    fp.Wait? && fp.at == Asleep(false) && Met(fp.goal, e) ==> pp.SetState? && pp.at.Broadcast?
  }

  // ---------------------------------------------------------------- devices and bytes

  predicate BeforeEnable(pp: ParentPc) {
    || pp.CreateFetcher? || (pp.SetState? && pp.site == AtReady)
    || pp.EnableLock? || pp.EnableWork?
  }

  predicate AfterDisable(pp: ParentPc) {
    Late(pp) && !pp.DisableLock? && !pp.DisableTry?
  }

  predicate SinksKnownOff(fp: FetcherPc) {
    || (fp.SinksOffUnlock? && fp.ok)
    || (Fetching(fp) && !fp.last)
    || fp.SinksOnLock? || fp.SinksOnWork?
  }

  /** The child may run, so the sinks must be on. */
  predicate Live(fp: FetcherPc) {
    PhaseOf(fp).Polling? || PhaseOf(fp).AskedStop? || PhaseOf(fp).AskedCont? || fp.SendCont?
  }

  predicate DeviceInv(pp: ParentPc, fp: FetcherPc, e: TraceEvent, polls: nat, on: bool, fullyOff: bool) {
    && (fullyOff ==> AfterDisable(pp) && !on)
    && (pp.DisableUnlock? ==> pp.ok == fullyOff)
    && ((pp.SetState? && pp.site == AtStop) || e == StopEvent ==> fullyOff)
    && (SinksKnownOff(fp) ==> !on)
    && (fp.SinksOnUnlock? && fp.ok ==> on)
    && (polls == 0 || Live(fp) ==> (on <==> !BeforeEnable(pp)) || Late(pp))
  }

  function Segments(log: seq<Segment>): (r: seq<seq<byte>>)
    ensures |r| == |log|
  {
    if log == [] then [] else Segments(log[..|log| - 1]) + [log[|log| - 1].bytes]
  }

  /** The chunks the fetches delivered. */
  function FetchedChunks(log: seq<Segment>): seq<seq<byte>> {
    if log == [] then []
    else
      var front := FetchedChunks(log[..|log| - 1]);
      if log[|log| - 1].Fetched? then front + [log[|log| - 1].bytes] else front
  }

  predicate NothingDropped(log: seq<Segment>) {
    forall g | g in log :: g.Dropped? ==> g.bytes == []
  }

  predicate ByteInv(produced: seq<byte>, log: seq<Segment>, etb: seq<byte>, host: seq<byte>) {
    && produced == Flatten(Segments(log)) + etb
    && host == Layout(FetchedChunks(log))
  }

  predicate LastFetchInv(ph: Phase, r: Rounds, last: Option<bool>) {
    last.Some? <==> r.polls == 1 && !r.aborted && (ph.Idle? || ph.Leaving?)
  }

  predicate EmptiedInv(fp: FetcherPc, h: History, etb: seq<byte>, back: nat, polls: nat) {
    && (polls == 0 ==> h.log == [] && back == 0)
    && (h.fullyOff && (h.lastFetch == Some(true) || fp == FetchUnlock(true, true)) ==> etb == [])
    && (fp == FetchUnlock(false, true) ==> etb == [])
  }

  predicate ExportInv(pp: ParentPc, fp: FetcherPc, exported: Option<Export>, host: seq<byte>, back: nat) {
    && (exported.Some? <==> pp == Finished)
    && (exported.Some? ==> exported == Some(UpTo(host, back)))
    && (pp.Export? || pp.Finished? ==> fp == Done)
  }

  // ---------------------------------------------------------------- the invariant, clause by clause

  predicate Mutexes(s: State) { MutexInv(s.locks, s.pp, s.fp) }

  predicate Slots(s: State) { SlotInv(s.pp, s.trace, s.event) }

  predicate Children(s: State) { ChildInv(s.pp, s.child) }

  predicate Phases(s: State) { PhaseInv(PhaseOf(s.fp), s.pp, s.child, s.event, s.rounds) }

  predicate Counts(s: State) { CountInv(PhaseOf(s.fp), s.event, s.rounds) }

  predicate Born(s: State) { s.fp.NotCreated? <==> s.pp.CreateFetcher? }

  predicate Sights(s: State) { SlotSeen(s.fp, s.event) }

  predicate Wakes(s: State) { WakeInv(s.pp, s.fp, s.event) }

  predicate Sinks(s: State) {
    DeviceInv(s.pp, s.fp, s.event, s.rounds.polls, s.collecting, s.hist.fullyOff)
  }

  predicate LastFetches(s: State) { LastFetchInv(PhaseOf(s.fp), s.rounds, s.hist.lastFetch) }

  predicate Emptied(s: State) { EmptiedInv(s.fp, s.hist, s.etb, s.back, s.rounds.polls) }

  predicate Exports(s: State) { ExportInv(s.pp, s.fp, s.hist.exported, s.host, s.back) }

  /** Everything but the byte counts. */
  predicate Core(s: State) {
    && Mutexes(s) && Slots(s) && Children(s) && Phases(s) && Counts(s) && Born(s)
    && Sights(s) && Wakes(s) && Sinks(s) && LastFetches(s) && Emptied(s) && Exports(s)
  }

  predicate Inv(s: State) {
    Core(s) && ByteInv(s.hist.produced, s.hist.log, s.etb, s.host)
  }

  lemma InitialInv()
    ensures Inv(Initial())
  {
  }

  // ---------------------------------------------------------------- preservation
  //
  // One lemma for each clause and each group of steps, with the clauses it rests on.

  predicate InPoll(fp: FetcherPc) {
    PhaseOf(fp).Polling? && !fp.Wait?
  }

  predicate InSinksOff(fp: FetcherPc) {
    fp.SinksOffLock? || fp.SinksOffTry? || fp.SinksOffUnlock?
  }

  predicate InSinksOn(fp: FetcherPc) {
    fp.SinksOnLock? || fp.SinksOnWork? || fp.SinksOnUnlock? || fp.SendCont?
  }

  /** The fetcher moves neither the parent nor the state and event. */
  lemma FetcherFrame(s: State, m: Move)
    requires FetcherCan(s, m)
    ensures var t := FetcherStep(s, m); t.pp == s.pp && t.event == s.event && t.trace == s.trace
  {
  }

  lemma MutexSet(s: State, m: Move)
    requires Mutexes(s) && ParentCan(s, m)
    requires s.pp.SetState?
    ensures Mutexes(ParentStep(s, m))
  {
    match s.pp.at
    case LockState =>
    case WriteState =>
    case Dispatch(_) =>
    case LockEvent(_) =>
    case WriteEvent(_) =>
    case Broadcast =>
    case UnlockEvent =>
    case UnlockState =>
  }

  lemma MutexParent(s: State, m: Move)
    requires Mutexes(s) && Born(s) && ParentCan(s, m)
    requires !s.pp.SetState?
    ensures Mutexes(ParentStep(s, m))
  {
    match s.pp
    case CreateFetcher =>
    case EnableLock =>
    case EnableWork =>
    case EnableUnlock =>
    case Detach =>
    case DisableLock =>
    case DisableTry(_) =>
    case DisableUnlock(_) =>
    case Join =>
    case Export =>
    case WaitChild =>
  }

  lemma MutexWait(s: State, m: Move)
    requires Mutexes(s) && FetcherCan(s, m)
    requires s.fp.Wait?
    ensures Mutexes(FetcherStep(s, m))
  {
    FetcherFrame(s, m);
  }

  lemma MutexPoll(s: State, m: Move)
    requires Mutexes(s) && FetcherCan(s, m)
    requires InPoll(s.fp)
    ensures Mutexes(FetcherStep(s, m))
  {
    FetcherFrame(s, m);
  }

  lemma MutexSinksOff(s: State, m: Move)
    requires Mutexes(s) && FetcherCan(s, m)
    requires InSinksOff(s.fp)
    ensures Mutexes(FetcherStep(s, m))
  {
    FetcherFrame(s, m);
  }

  lemma MutexFetch(s: State, m: Move)
    requires Mutexes(s) && FetcherCan(s, m)
    requires Fetching(s.fp)
    ensures Mutexes(FetcherStep(s, m))
  {
    FetcherFrame(s, m);
  }

  lemma MutexSinksOn(s: State, m: Move)
    requires Mutexes(s) && FetcherCan(s, m)
    requires InSinksOn(s.fp)
    ensures Mutexes(FetcherStep(s, m))
  {
    FetcherFrame(s, m);
  }

  lemma MutexExit(s: State, m: Move)
    requires Mutexes(s) && FetcherCan(s, m)
    requires PhaseOf(s.fp).Leaving?
    ensures Mutexes(FetcherStep(s, m))
  {
    FetcherFrame(s, m);
  }

  lemma SlotSet(s: State, m: Move)
    requires Slots(s) && ParentCan(s, m)
    requires s.pp.SetState?
    ensures Slots(ParentStep(s, m))
  {
    match s.pp.at
    case LockState =>
    case WriteState =>
    case Dispatch(_) =>
    case LockEvent(_) =>
    case WriteEvent(_) =>
    case Broadcast =>
    case UnlockEvent =>
    case UnlockState =>
  }

  lemma SlotParent(s: State, m: Move)
    requires Slots(s) && Phases(s) && ParentCan(s, m)
    requires !s.pp.SetState?
    ensures Slots(ParentStep(s, m))
  {
  }

  lemma SlotFetcher(s: State, m: Move)
    requires Slots(s) && Exports(s) && FetcherCan(s, m)
    ensures Slots(FetcherStep(s, m)) && Exports(FetcherStep(s, m))
  {
    FetcherFrame(s, m);
  }

  lemma ChildSet(s: State, m: Move)
    requires Children(s) && ParentCan(s, m)
    requires s.pp.SetState?
    ensures Children(ParentStep(s, m))
  {
  }

  lemma ChildCollect(s: State, m: Move)
    requires Children(s) && ParentCan(s, m)
    requires s.pp.WaitChild?
    ensures Children(ParentStep(s, m))
  {
  }

  lemma ChildParent(s: State, m: Move)
    requires Children(s) && ParentCan(s, m)
    requires !s.pp.SetState? && !s.pp.WaitChild?
    ensures Children(ParentStep(s, m))
  {
  }

  lemma ChildFetcher(s: State, m: Move)
    requires Children(s) && Phases(s) && Slots(s) && FetcherCan(s, m)
    ensures Children(FetcherStep(s, m))
  {
    FetcherFrame(s, m);
  }

  lemma PhaseSetEnter(s: State, m: Move)
    requires Phases(s) && Children(s) && Slots(s) && ParentCan(s, m)
    requires s.pp.SetState? && (s.pp.at.LockState? || s.pp.at.WriteState? || s.pp.at.Dispatch?)
    ensures Phases(ParentStep(s, m))
  {
  }

  lemma PhaseSetEvent(s: State, m: Move)
    requires Phases(s) && Children(s) && Slots(s) && Counts(s) && Mutexes(s) && Sights(s) && ParentCan(s, m)
    requires s.pp.SetState? && s.pp.at.WriteEvent?
    ensures Phases(ParentStep(s, m))
  {
  }

  lemma PhaseSetInner(s: State, m: Move)
    requires Phases(s) && Children(s) && Slots(s) && ParentCan(s, m)
    requires s.pp.SetState? && (s.pp.at.LockEvent? || s.pp.at.Broadcast? || s.pp.at.UnlockEvent?)
    ensures Phases(ParentStep(s, m))
  {
  }

  lemma PhaseSetLeave(s: State, m: Move)
    requires Phases(s) && Children(s) && Slots(s) && ParentCan(s, m)
    requires s.pp.SetState? && s.pp.at.UnlockState?
    ensures Phases(ParentStep(s, m))
  {
  }

  lemma PhaseCollect(s: State, m: Move)
    requires Phases(s) && Children(s) && Slots(s) && ParentCan(s, m)
    requires s.pp.WaitChild?
    ensures Phases(ParentStep(s, m))
  {
    match m.r
    case Exited =>
    case StopSig =>
    case Continued =>
    case ContStopSig =>
    case NoChild =>
  }

  lemma PhaseParent(s: State, m: Move)
    requires Phases(s) && Children(s) && Slots(s) && Born(s) && ParentCan(s, m)
    requires !s.pp.SetState? && !s.pp.WaitChild?
    ensures Phases(ParentStep(s, m))
  {
    match s.pp
    case CreateFetcher =>
    case EnableLock =>
    case EnableWork =>
    case EnableUnlock =>
    case Detach =>
    case DisableLock =>
    case DisableTry(_) =>
    case DisableUnlock(_) =>
    case Join =>
    case Export =>
  }

  lemma PhaseWaitLoop(s: State, m: Move)
    requires Phases(s) && FetcherCan(s, m)
    requires s.fp.Wait? && !s.fp.at.Holding? && !s.fp.at.Seen?
    ensures Phases(FetcherStep(s, m))
  {
    FetcherFrame(s, m);
  }

  lemma PhaseWaitMissed(s: State, m: Move)
    requires Phases(s) && FetcherCan(s, m)
    requires s.fp.Wait? && s.fp.at.Holding? && !Met(s.fp.goal, s.event)
    ensures Phases(FetcherStep(s, m))
  {
    FetcherFrame(s, m);
  }

  lemma PhaseWaitFound(s: State, m: Move)
    requires Phases(s) && Children(s) && Slots(s) && Counts(s) && Mutexes(s) && FetcherCan(s, m)
    requires s.fp.Wait? && s.fp.at.Holding? && Met(s.fp.goal, s.event)
    ensures Phases(FetcherStep(s, m))
  {
    assert FetcherStep(s, m) == s.(fp := Wait(s.fp.goal, Seen(s.event)));
  }

  lemma PhaseWaitSeen(s: State, m: Move)
    requires Phases(s) && Slots(s) && Counts(s) && Sights(s) && FetcherCan(s, m)
    requires s.fp.Wait? && s.fp.at.Seen?
    ensures Phases(FetcherStep(s, m))
  {
    FetcherFrame(s, m);
  }

  lemma PhasePoll(s: State, m: Move)
    requires Phases(s) && Children(s) && Slots(s) && Counts(s) && FetcherCan(s, m)
    requires InPoll(s.fp)
    ensures Phases(FetcherStep(s, m))
  {
    FetcherFrame(s, m);
  }

  lemma PhaseSinksOff(s: State, m: Move)
    requires Phases(s) && Counts(s) && FetcherCan(s, m)
    requires InSinksOff(s.fp)
    ensures Phases(FetcherStep(s, m))
  {
    FetcherFrame(s, m);
  }

  lemma PhaseFetchRound(s: State, m: Move)
    requires Phases(s) && Counts(s) && FetcherCan(s, m)
    requires Fetching(s.fp) && !s.fp.last
    ensures Phases(FetcherStep(s, m))
  {
    FetcherFrame(s, m);
  }

  lemma PhaseFetchLast(s: State, m: Move)
    requires Phases(s) && Counts(s) && FetcherCan(s, m)
    requires Fetching(s.fp) && s.fp.last
    ensures Phases(FetcherStep(s, m))
  {
    FetcherFrame(s, m);
  }

  lemma PhaseSinksOn(s: State, m: Move)
    requires Phases(s) && Children(s) && Slots(s) && Counts(s) && FetcherCan(s, m)
    requires InSinksOn(s.fp)
    ensures Phases(FetcherStep(s, m))
  {
    FetcherFrame(s, m);
  }

  lemma PhaseExit(s: State, m: Move)
    requires Phases(s) && Counts(s) && FetcherCan(s, m)
    requires PhaseOf(s.fp).Leaving?
    ensures Phases(FetcherStep(s, m))
  {
    FetcherFrame(s, m);
  }

  lemma CountParent(s: State, m: Move)
    requires Counts(s) && Slots(s) && Born(s) && ParentCan(s, m)
    ensures Counts(ParentStep(s, m))
  {
  }

  lemma CountWait(s: State, m: Move)
    requires Counts(s) && Phases(s) && Sights(s) && FetcherCan(s, m)
    requires s.fp.Wait?
    ensures Counts(FetcherStep(s, m))
  {
    FetcherFrame(s, m);
  }

  lemma CountFetcher(s: State, m: Move)
    requires Counts(s) && FetcherCan(s, m)
    requires !s.fp.Wait?
    ensures Counts(FetcherStep(s, m))
  {
    FetcherFrame(s, m);
  }

  lemma SightParent(s: State, m: Move)
    requires Born(s) && Sights(s) && Wakes(s) && Mutexes(s) && Slots(s) && ParentCan(s, m)
    ensures Born(ParentStep(s, m)) && Sights(ParentStep(s, m)) && Wakes(ParentStep(s, m))
  {
  }

  lemma SightFetcher(s: State, m: Move)
    requires Born(s) && Sights(s) && Wakes(s) && Mutexes(s) && FetcherCan(s, m)
    ensures Born(FetcherStep(s, m)) && Sights(FetcherStep(s, m)) && Wakes(FetcherStep(s, m))
  {
    FetcherFrame(s, m);
  }

  lemma SinkSet(s: State, m: Move)
    requires Sinks(s) && Slots(s) && ParentCan(s, m)
    requires s.pp.SetState?
    ensures Sinks(ParentStep(s, m))
  {
    match s.pp.at
    case LockState =>
    case WriteState =>
    case Dispatch(_) =>
    case LockEvent(_) =>
    case WriteEvent(_) =>
    case Broadcast =>
    case UnlockEvent =>
    case UnlockState =>
  }

  lemma SinkParent(s: State, m: Move)
    requires Sinks(s) && Slots(s) && Phases(s) && Counts(s) && Born(s) && ParentCan(s, m)
    requires !s.pp.SetState?
    ensures Sinks(ParentStep(s, m))
  {
    match s.pp
    case CreateFetcher =>
    case EnableLock =>
    case EnableWork =>
    case EnableUnlock =>
    case Detach =>
    case DisableLock =>
    case DisableTry(_) =>
    case DisableUnlock(_) =>
    case Join =>
    case Export =>
    case WaitChild =>
  }

  lemma SinkWait(s: State, m: Move)
    requires Sinks(s) && Slots(s) && Phases(s) && Counts(s) && Sights(s) && FetcherCan(s, m)
    requires s.fp.Wait?
    ensures Sinks(FetcherStep(s, m))
  {
    FetcherFrame(s, m);
  }

  lemma SinkPoll(s: State, m: Move)
    requires Sinks(s) && FetcherCan(s, m)
    requires InPoll(s.fp)
    ensures Sinks(FetcherStep(s, m))
  {
    FetcherFrame(s, m);
  }

  lemma SinkSinksOff(s: State, m: Move)
    requires Sinks(s) && Phases(s) && Counts(s) && FetcherCan(s, m)
    requires InSinksOff(s.fp)
    ensures Sinks(FetcherStep(s, m))
  {
    FetcherFrame(s, m);
  }

  lemma SinkFetch(s: State, m: Move)
    requires Sinks(s) && Phases(s) && Counts(s) && FetcherCan(s, m)
    requires Fetching(s.fp)
    ensures Sinks(FetcherStep(s, m))
  {
    FetcherFrame(s, m);
  }

  lemma SinkSinksOn(s: State, m: Move)
    requires Sinks(s) && Phases(s) && Counts(s) && FetcherCan(s, m)
    requires InSinksOn(s.fp)
    ensures Sinks(FetcherStep(s, m))
  {
    FetcherFrame(s, m);
  }

  lemma SinkExit(s: State, m: Move)
    requires Sinks(s) && Phases(s) && Counts(s) && FetcherCan(s, m)
    requires PhaseOf(s.fp).Leaving?
    ensures Sinks(FetcherStep(s, m))
  {
    FetcherFrame(s, m);
  }

  lemma LastParent(s: State, m: Move)
    requires LastFetches(s) && Born(s) && ParentCan(s, m)
    ensures LastFetches(ParentStep(s, m))
  {
  }

  lemma LastWait(s: State, m: Move)
    requires LastFetches(s) && Emptied(s) && Counts(s) && Phases(s) && Sights(s) && FetcherCan(s, m)
    requires s.fp.Wait?
    ensures LastFetches(FetcherStep(s, m)) && Emptied(FetcherStep(s, m))
  {
    FetcherFrame(s, m);
  }

  lemma LastFetcher(s: State, m: Move)
    requires LastFetches(s) && Counts(s) && FetcherCan(s, m)
    requires !s.fp.Wait?
    ensures LastFetches(FetcherStep(s, m))
  {
    FetcherFrame(s, m);
  }

  lemma EmptiedParent(s: State, m: Move)
    requires Emptied(s) && LastFetches(s) && Phases(s) && Slots(s) && Born(s) && ParentCan(s, m)
    ensures Emptied(ParentStep(s, m))
  {
  }

  lemma EmptiedFetcher(s: State, m: Move)
    requires Emptied(s) && Counts(s) && FetcherCan(s, m)
    requires !s.fp.Wait?
    ensures Emptied(FetcherStep(s, m))
  {
    FetcherFrame(s, m);
  }

  lemma ExportParent(s: State, m: Move)
    requires Exports(s) && ParentCan(s, m)
    ensures Exports(ParentStep(s, m))
  {
  }

  lemma ChildWorld(s: State, l: Label)
    requires Children(s) && Phases(s) && Slots(s) && Can(s, l) && !l.ParentMove? && !l.FetcherMove?
    ensures Children(Step(s, l)) && Phases(Step(s, l))
  {
  }

  lemma SinkWorld(s: State, l: Label)
    requires Sinks(s) && Emptied(s) && LastFetches(s) && Can(s, l) && !l.ParentMove? && !l.FetcherMove?
    ensures Sinks(Step(s, l)) && Emptied(Step(s, l)) && LastFetches(Step(s, l))
  {
  }

  lemma OtherWorld(s: State, l: Label)
    requires Mutexes(s) && Slots(s) && Counts(s) && Born(s) && Sights(s) && Wakes(s) && Exports(s)
    requires Can(s, l) && !l.ParentMove? && !l.FetcherMove?
    ensures
      var t := Step(s, l);
      Mutexes(t) && Slots(t) && Counts(t) && Born(t) && Sights(t) && Wakes(t) && Exports(t)
  {
  }

  lemma SetKept(s: State, m: Move)
    requires Core(s) && ParentCan(s, m) && s.pp.SetState?
    ensures
      var t := ParentStep(s, m);
      Mutexes(t) && Slots(t) && Children(t) && Sinks(t) && Phases(t)
  {
    MutexSet(s, m);
    SlotSet(s, m);
    ChildSet(s, m);
    SinkSet(s, m);
    match s.pp.at
    case WriteEvent(_) => PhaseSetEvent(s, m);
    case UnlockState => PhaseSetLeave(s, m);
    case LockState => PhaseSetEnter(s, m);
    case WriteState => PhaseSetEnter(s, m);
    case Dispatch(_) => PhaseSetEnter(s, m);
    case _ => PhaseSetInner(s, m);
  }

  lemma PlainKept(s: State, m: Move)
    requires Core(s) && ParentCan(s, m) && !s.pp.SetState?
    ensures
      var t := ParentStep(s, m);
      Mutexes(t) && Slots(t) && Children(t) && Sinks(t) && Phases(t)
  {
    MutexParent(s, m);
    SlotParent(s, m);
    SinkParent(s, m);
    if s.pp.WaitChild? {
      ChildCollect(s, m);
      PhaseCollect(s, m);
    } else {
      ChildParent(s, m);
      PhaseParent(s, m);
    }
  }

  lemma ParentKept(s: State, m: Move)
    requires Core(s) && ParentCan(s, m)
    ensures Core(ParentStep(s, m))
  {
    if s.pp.SetState? { SetKept(s, m); } else { PlainKept(s, m); }
    CountParent(s, m);
    SightParent(s, m);
    LastParent(s, m);
    EmptiedParent(s, m);
    ExportParent(s, m);
  }

  lemma FetcherKept(s: State, m: Move)
    requires Core(s) && FetcherCan(s, m)
    ensures Core(FetcherStep(s, m))
  {
    SlotFetcher(s, m);
    ChildFetcher(s, m);
    SightFetcher(s, m);
    if s.fp.Wait? {
      MutexWait(s, m);
      CountWait(s, m);
      SinkWait(s, m);
      LastWait(s, m);
      match s.fp.at
      case Holding => if Met(s.fp.goal, s.event) { PhaseWaitFound(s, m); } else { PhaseWaitMissed(s, m); }
      case Seen(_) => PhaseWaitSeen(s, m);
      case _ => PhaseWaitLoop(s, m);
    } else {
      CountFetcher(s, m);
      LastFetcher(s, m);
      EmptiedFetcher(s, m);
      WorkKept(s, m);
    }
  }

  lemma WorkKept(s: State, m: Move)
    requires Core(s) && FetcherCan(s, m) && !s.fp.Wait?
    ensures Mutexes(FetcherStep(s, m)) && Phases(FetcherStep(s, m)) && Sinks(FetcherStep(s, m))
  {
    if InPoll(s.fp) {
      MutexPoll(s, m);
      PhasePoll(s, m);
      SinkPoll(s, m);
    } else if InSinksOff(s.fp) {
      MutexSinksOff(s, m);
      PhaseSinksOff(s, m);
      SinkSinksOff(s, m);
    } else if Fetching(s.fp) {
      MutexFetch(s, m);
      if s.fp.last { PhaseFetchLast(s, m); } else { PhaseFetchRound(s, m); }
      SinkFetch(s, m);
    } else if InSinksOn(s.fp) {
      MutexSinksOn(s, m);
      PhaseSinksOn(s, m);
      SinkSinksOn(s, m);
    } else {
      MutexExit(s, m);
      PhaseExit(s, m);
      SinkExit(s, m);
    }
  }

  lemma CoreKept(s: State, l: Label)
    requires Core(s) && Can(s, l)
    ensures Core(Step(s, l))
  {
    match l
    case ParentMove(m) => ParentKept(s, m);
    case FetcherMove(m) => FetcherKept(s, m);
    case _ =>
      ChildWorld(s, l);
      SinkWorld(s, l);
      OtherWorld(s, l);
  }
}
