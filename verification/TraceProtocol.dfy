/**
  The two-thread trace session as a transition system: the parent (main thread), the fetcher
  thread, the traced child and the kernel. One label is one lock, unlock, wait, signal, kill,
  device operation or kernel event, so a run is a sequence of labels and every interleaving is one.
*/
module TraceProtocol {
  import opened Common
  import opened Chunks

  datatype TraceState = InitState | FiniState | ReadyState | RunningState | SuspendedState

  datatype TraceEvent =
    InitEvent | FiniEvent | ReadyEvent | StartEvent | StopEvent | SuspendEvent | ResumeEvent

  datatype Owner = Free | ByParent | ByFetcher

  /** `clean` means exit status 0. `Held` is the ptrace stop before PTRACE_DETACH. */
  datatype Status = Held | Running | Stopped | Zombie(clean: bool) | Reaped(clean: bool)

  /** The child as the kernel sees it, with what waitpid can still report about it. */
  datatype Child = Child(
    status: Status,
    stopPending: bool,           // SIGSTOP sent, not delivered
    stopReport: bool,            // stop not yet collected by waitpid
    contReport: bool,            // WIFCONTINUED not yet collected
    contStop: bool)              // a stop with signal SIGCONT that waitpid may still report

  // ---------------------------------------------------------------- program counters

  /** The call sites of set_trace_state, in the order the parent can reach them. */
  datatype Site = AtReady | AtStart | AtSuspend | AtResume | AtStop | AtFini

  /** Inside set_trace_state and, nested in it, signal_trace_event. */
  datatype SetPc =
    | LockState
    | WriteState
    | Dispatch(prev: TraceState)
    | LockEvent(event: TraceEvent)
    | WriteEvent(event: TraceEvent)
    | Broadcast
    | UnlockEvent
    | UnlockState

  datatype ParentPc =
    | CreateFetcher
    | SetState(site: Site, at: SetPc)
    | EnableLock | EnableWork | EnableUnlock
    | Detach
    | WaitChild
    | DisableLock | DisableTry(failed: nat) | DisableUnlock(ok: bool)
    | Join
    | Export
    | Finished

  /** The events a condition wait of the fetcher accepts. */
  datatype Goal = StartOrFini | Suspend | Resume | StopOrFini

  datatype WaitPc = WantLock | Holding | Asleep(notified: bool) | Seen(event: TraceEvent)

  datatype FetcherPc =
    | NotCreated
    | Wait(goal: Goal, at: WaitPc)
    | ReadStart
    | Probe
    | Compare
    | SendStop
    | SinksOffLock | SinksOffTry(failed: nat) | SinksOffUnlock(ok: bool)
    | FetchLock(last: bool) | FetchRoom(last: bool) | FetchRead(last: bool)
    | FetchEmpty(last: bool) | FetchUnlock(last: bool, ok: bool)
    | SinksOnLock | SinksOnWork | SinksOnUnlock(ok: bool)
    | SendCont
    | ReadAgain
    | Nap
    | ExitLock | ExitMark | ExitBroadcast | ExitUnlock
    | Done

  // ---------------------------------------------------------------- state

  /** What one fetch did to the bytes of the ETB. */
  datatype Segment = Fetched(bytes: seq<byte>) | Dropped(bytes: seq<byte>)

  /** Counts of the rounds of one session. */
  datatype Rounds = Rounds(
    polls: nat,                  // times trace_sink_polling was entered
    stopsSent: nat,              // successful kill(SIGSTOP)
    suspends: nat,               // suspend events written into the slot
    aborted: bool)               // a round ended in `goto exit`

  /** What happened to the bytes and the device. */
  datatype History = History(
    produced: seq<byte>,         // every byte the hardware put into the ETB
    log: seq<Segment>,           // where those bytes went
    fullyOff: bool,              // the parent's full disable succeeded
    lastFetch: Option<bool>,     // outcome of the fetch after the loop
    exported: Option<Export>)

  datatype Locks = Locks(state: Owner, event: Owner, trace: Owner, fetcher: Owner)

  /** `rounds` and `hist` are records of the run: no step is enabled or chosen by them. */
  datatype State = State(
    pp: ParentPc,
    fp: FetcherPc,
    locks: Locks,
    trace: TraceState,
    event: TraceEvent,
    child: Child,
    collecting: bool,            // the ETB sink is on
    etb: seq<byte>,              // unread bytes
    host: seq<byte>,             // the host buffer up to the end of its data
    back: nat,                   // how far before that end a failed read left trace_buf_ptr
    rounds: Rounds,
    hist: History)

  function Initial(): State {
    State(CreateFetcher, NotCreated, Locks(Free, Free, Free, Free), InitState, InitEvent,
          Child(Held, false, false, false, false), false, [], [], 0,
          Rounds(0, 0, 0, false), History([], [], false, None, None))
  }

  // ---------------------------------------------------------------- labels

  datatype Report = Exited | StopSig | Continued | ContStopSig | NoChild

  datatype Move =
    | Go                         // the only continuation, or success
    | Fail(left: bool)           // failure; a failed device operation leaves the sink `left`
    | Below                      // threshold not exceeded
    | Take(n: nat)               // cs_get_trace_data returned n bytes
    | Misread(code: nat)         // cs_get_trace_data returned -code
    | Collect(r: Report)         // waitpid returned r

  datatype Label =
    | ParentMove(m: Move)
    | FetcherMove(m: Move)
    | Produce(bytes: seq<byte>)
    | DeliverStop
    | ChildExit(clean: bool)
    | SpuriousWake

  // ---------------------------------------------------------------- set_trace_state

  function Target(site: Site): TraceState {
    match site
    case AtReady => ReadyState
    case AtStart => RunningState
    case AtSuspend => SuspendedState
    case AtResume => RunningState
    case AtStop => ReadyState
    case AtFini => FiniState
  }

  /** The if-chain of set_trace_state; None is the "unexpected transition" branch. */
  function EventFor(prev: TraceState, next: TraceState): Option<TraceEvent> {
    if prev == InitState then Some(InitEvent)
    else if next == FiniState then Some(FiniEvent)
    else if next == ReadyState then Some(StopEvent)
    else if prev == ReadyState && next == RunningState then Some(StartEvent)
    else if prev == RunningState && next == SuspendedState then Some(SuspendEvent)
    else if prev == SuspendedState && next == RunningState then Some(ResumeEvent)
    else None
  }

  function AfterSet(site: Site): ParentPc {
    match site
    case AtReady => EnableLock
    case AtStart => Detach
    case AtSuspend => WaitChild
    case AtResume => WaitChild
    case AtStop => SetState(AtFini, LockState)
    case AtFini => Join
  }

  /** pthread_cond_broadcast on trace_event_cond. */
  function Notify(fp: FetcherPc): FetcherPc {
    if fp.Wait? && fp.at.Asleep? then Wait(fp.goal, Asleep(true)) else fp
  }

  // ---------------------------------------------------------------- the parent

  predicate ParentCan(s: State, m: Move) {
    match s.pp
    case CreateFetcher => m == Go
    case SetState(_, LockState) => m == Go && s.locks.state == Free
    case SetState(_, LockEvent(_)) => m == Go && s.locks.event == Free
    case SetState(_, _) => m == Go
    case EnableLock => m == Go && s.locks.trace == Free
    case EnableWork => m == Go
    case EnableUnlock => m == Go
    case Detach => m == Go
    case WaitChild => m.Collect? && CanCollect(s, m.r)
    case DisableLock => m == Go && s.locks.trace == Free
    case DisableTry(_) => m == Go || m.Fail?
    case DisableUnlock(_) => m == Go
    case Join => m == Go && s.fp == Done
    case Export => m == Go
    case Finished => false
  }

  predicate CanCollect(s: State, r: Report) {
    match r
    case Exited => s.child.status.Zombie?
    case StopSig => s.child.status == Stopped && s.child.stopReport
    case Continued => s.child.contReport && !s.child.status.Reaped?
    case ContStopSig => s.child.contStop && !s.child.status.Reaped?
    case NoChild => s.child.status.Reaped?
  }

  function ParentStep(s: State, m: Move): State
    requires ParentCan(s, m)
  {
    match s.pp
    case CreateFetcher => s.(pp := SetState(AtReady, LockState), fp := Wait(StartOrFini, WantLock))
    case SetState(site, at) => SetStep(s, site, at)
    case EnableLock => s.(locks := s.locks.(trace := ByParent), pp := EnableWork)
    case EnableWork => s.(collecting := true, pp := EnableUnlock)
    case EnableUnlock => s.(locks := s.locks.(trace := Free), pp := SetState(AtStart, LockState))
    case Detach => s.(child := s.child.(status := Running), pp := WaitChild)
    case WaitChild => CollectStep(s, m.r)
    case DisableLock => s.(locks := s.locks.(trace := ByParent), pp := DisableTry(0))
    case DisableTry(failed) =>
      if m.Go? then
        s.(collecting := false, pp := DisableUnlock(true), hist := s.hist.(fullyOff := true))
      else
        s.(collecting := m.left,
           pp := if failed + 1 < TRACE_DISABLE_TRIAL then DisableTry(failed + 1) else DisableUnlock(false))
    case DisableUnlock(ok) =>
      s.(locks := s.locks.(trace := Free), pp := SetState(if ok then AtStop else AtFini, LockState))
    case Join => s.(pp := Export)
    case Export => s.(pp := Finished, hist := s.hist.(exported := Some(UpTo(s.host, s.back))))
  }

  function SetStep(s: State, site: Site, at: SetPc): State {
    match at
    case LockState => s.(locks := s.locks.(state := ByParent), pp := SetState(site, WriteState))
    case WriteState => s.(trace := Target(site), pp := SetState(site, Dispatch(s.trace)))
    case Dispatch(prev) =>
      var e := EventFor(prev, Target(site));
      s.(pp := SetState(site, if e.Some? then LockEvent(e.value) else UnlockState))
    case LockEvent(e) => s.(locks := s.locks.(event := ByParent), pp := SetState(site, WriteEvent(e)))
    case WriteEvent(e) =>
      s.(event := e, pp := SetState(site, Broadcast),
         rounds := if e == SuspendEvent then s.rounds.(suspends := s.rounds.suspends + 1) else s.rounds)
    case Broadcast => s.(fp := Notify(s.fp), pp := SetState(site, UnlockEvent))
    case UnlockEvent => s.(locks := s.locks.(event := Free), pp := SetState(site, UnlockState))
    case UnlockState => s.(locks := s.locks.(state := Free), pp := AfterSet(site))
  }

  /** One return of waitpid(pid, WUNTRACED | WCONTINUED) and the branch the loop takes on it. */
  function CollectStep(s: State, r: Report): State
    requires CanCollect(s, r)
  {
    match r
    case Exited =>
      s.(child := s.child.(status := Reaped(s.child.status.clean), contReport := false, contStop := false),
         pp := if s.child.status.clean then DisableLock else WaitChild)
    case StopSig => s.(child := s.child.(stopReport := false), pp := SetState(AtSuspend, LockState))
    case Continued => s.(child := s.child.(contReport := false))
    case ContStopSig => s.(child := s.child.(contStop := false), pp := SetState(AtResume, LockState))
    case NoChild => s
  }

  // ---------------------------------------------------------------- the fetcher

  predicate Met(goal: Goal, e: TraceEvent) {
    match goal
    case StartOrFini => e == StartEvent || e == FiniEvent
    case Suspend => e == SuspendEvent
    case Resume => e == ResumeEvent
    case StopOrFini => e == StopEvent || e == FiniEvent
  }

  function AfterWait(goal: Goal, e: TraceEvent): FetcherPc {
    match goal
    case StartOrFini => if e == StartEvent then ReadStart else Done
    case Suspend => SinksOffLock
    case Resume => ReadAgain
    case StopOrFini => FetchLock(true)
  }

  predicate FetcherCan(s: State, m: Move) {
    match s.fp
    case NotCreated => false
    case Wait(_, WantLock) => m == Go && s.locks.event == Free
    case Wait(_, Asleep(notified)) => m == Go && notified
    case Wait(_, _) => m == Go
    case Compare => m == Go || m == Below
    case SendStop => m == Go || (m.Fail? && !s.child.status.Reaped?)
    case SinksOffLock => m == Go && s.locks.trace == Free
    case SinksOffTry(_) => m == Go || m.Fail?
    case FetchLock(_) => m == Go && s.locks.trace == Free
    case FetchRoom(_) => m == Go || m.Fail?
    case FetchRead(_) => (m.Take? && m.n <= |s.etb|) || (m.Misread? && 0 < m.code < 8)
    case SinksOnLock => m == Go && s.locks.trace == Free
    case SinksOnWork => m == Go || m.Fail?
    case SendCont => m == Go || (m.Fail? && !s.child.status.Reaped?)
    case ExitLock => m == Go && s.locks.fetcher == Free
    case Done => false
    case _ => m == Go
  }

  function FetcherStep(s: State, m: Move): State
    requires FetcherCan(s, m)
  {
    match s.fp
    case Wait(goal, at) => WaitStep(s, goal, at)
    case ReadStart => s.(fp := Probe)
    case Probe => s.(fp := if s.child.status.Reaped? then Wait(StopOrFini, WantLock) else Compare)
    case Compare => s.(fp := if m == Go then SendStop else Nap)
    case SendStop => StopStep(s, m)
    case SinksOffLock => s.(locks := s.locks.(trace := ByFetcher), fp := SinksOffTry(0))
    case SinksOffTry(failed) =>
      if m.Go? then s.(collecting := false, fp := SinksOffUnlock(true))
      else
        s.(collecting := m.left,
           fp := if failed + 1 < TRACE_DISABLE_TRIAL then SinksOffTry(failed + 1) else SinksOffUnlock(false))
    case SinksOffUnlock(ok) =>
      var t := s.(locks := s.locks.(trace := Free));
      if ok then t.(fp := FetchLock(false)) else Abort(t)
    case FetchLock(last) => s.(locks := s.locks.(trace := ByFetcher), fp := FetchRoom(last))
    case FetchRoom(last) =>
      if m.Go? then s.(fp := FetchRead(last))
      else
        s.(host := Append(s.host, []), back := 0, fp := FetchUnlock(last, false),
           hist := Logged(s.hist, Fetched([])))
    case FetchRead(last) =>
      if m.Take? then
        s.(host := Append(s.host, s.etb[..m.n]), back := 0, etb := s.etb[m.n..], fp := FetchEmpty(last),
           hist := Logged(s.hist, Fetched(s.etb[..m.n])))
      else
        s.(host := Append(s.host, []), back := m.code, fp := FetchEmpty(last),
           hist := Logged(s.hist, Fetched([])))
    case FetchEmpty(last) =>
      s.(etb := [], fp := FetchUnlock(last, true), hist := Logged(s.hist, Dropped(s.etb)))
    case FetchUnlock(last, ok) =>
      var t := s.(locks := s.locks.(trace := Free));
      if last then t.(fp := ExitLock, hist := t.hist.(lastFetch := Some(ok)))
      else if ok then t.(fp := SinksOnLock)
      else Abort(t)
    case SinksOnLock => s.(locks := s.locks.(trace := ByFetcher), fp := SinksOnWork)
    case SinksOnWork =>
      s.(collecting := if m.Go? then true else m.left, fp := SinksOnUnlock(m.Go?))
    case SinksOnUnlock(ok) =>
      var t := s.(locks := s.locks.(trace := Free));
      if ok then t.(fp := SendCont) else Abort(t)
    case SendCont => ContStep(s, m)
    case ReadAgain => s.(fp := Nap)
    case Nap => s.(fp := Probe)
    case ExitLock => s.(locks := s.locks.(fetcher := ByFetcher), fp := ExitMark)
    case ExitMark => s.(fp := ExitBroadcast)
    case ExitBroadcast => s.(fp := ExitUnlock)
    case ExitUnlock => s.(locks := s.locks.(fetcher := Free), fp := Wait(StartOrFini, WantLock))
  }

  function Logged(h: History, seg: Segment): History {
    h.(log := h.log + [seg])
  }

  /** `goto exit` from inside a round. */
  function Abort(s: State): State {
    s.(fp := ExitLock, rounds := s.rounds.(aborted := true))
  }

  function WaitStep(s: State, goal: Goal, at: WaitPc): State {
    match at
    case WantLock => s.(locks := s.locks.(event := ByFetcher), fp := Wait(goal, Holding))
    case Holding =>
      if Met(goal, s.event) then s.(fp := Wait(goal, Seen(s.event)))
      else s.(locks := s.locks.(event := Free), fp := Wait(goal, Asleep(false)))
    case Asleep(_) => s.(fp := Wait(goal, WantLock))
    case Seen(e) =>
      s.(locks := s.locks.(event := Free), fp := AfterWait(goal, e),
         rounds := if goal == StartOrFini && e == StartEvent
                   then s.rounds.(polls := s.rounds.polls + 1) else s.rounds)
  }

  /** kill(child_pid, SIGSTOP): ESRCH iff reaped; on a zombie it succeeds and does nothing. */
  function StopStep(s: State, m: Move): State {
    if s.child.status.Reaped? || m.Fail? then s.(fp := Wait(StopOrFini, WantLock))
    else
      s.(child := if s.child.status == Held || s.child.status == Running
                  then s.child.(stopPending := true) else s.child,
         fp := Wait(Suspend, WantLock),
         rounds := s.rounds.(stopsSent := s.rounds.stopsSent + 1))
  }

  /** kill(child_pid, SIGCONT) */
  function ContStep(s: State, m: Move): State {
    if s.child.status.Reaped? then s.(fp := Wait(StopOrFini, WantLock))
    else if m.Fail? then Abort(s)
    else
      s.(child := if s.child.status == Stopped then Child(Running, false, false, true, true) else s.child,
         fp := Wait(Resume, WantLock))
  }

  // ---------------------------------------------------------------- all steps

  predicate Can(s: State, l: Label) {
    match l
    case ParentMove(m) => ParentCan(s, m)
    case FetcherMove(m) => FetcherCan(s, m)
    case Produce(_) => s.collecting
    case DeliverStop => s.child.status == Running && s.child.stopPending
    case ChildExit(_) => s.child.status == Running
    case SpuriousWake => s.fp.Wait? && s.fp.at.Asleep?
  }

  function Step(s: State, l: Label): State
    requires Can(s, l)
  {
    match l
    case ParentMove(m) => ParentStep(s, m)
    case FetcherMove(m) => FetcherStep(s, m)
    case Produce(bytes) =>
      s.(etb := s.etb + bytes, hist := s.hist.(produced := s.hist.produced + bytes))
    case DeliverStop => s.(child := s.child.(status := Stopped, stopPending := false, stopReport := true))
    case ChildExit(clean) => s.(child := s.child.(status := Zombie(clean), stopPending := false))
    case SpuriousWake => s.(fp := Wait(s.fp.goal, WantLock))
  }

  /** `ls` can be taken from `s`, one label after the other. */
  ghost predicate Runs(s: State, ls: seq<Label>)
    decreases |ls|
  {
    ls == [] || (Can(s, ls[0]) && Runs(Step(s, ls[0]), ls[1..]))
  }

  ghost function After(s: State, ls: seq<Label>): State
    requires Runs(s, ls)
    decreases |ls|
  {
    if ls == [] then s else After(Step(s, ls[0]), ls[1..])
  }

  ghost predicate Leads(s: State, t: State) {
    exists ls :: Runs(s, ls) && After(s, ls) == t
  }

  ghost predicate Reachable(s: State) {
    Leads(Initial(), s)
  }
}
