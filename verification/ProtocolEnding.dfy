/**
  Which sessions can still end with an export. From every other reachable state no continuation
  gets there, and from these one is constructed, step by step.
*/
module ProtocolEnding {
  import opened Common
  import opened TraceProtocol
  import opened ProtocolInvariant
  import opened ProtocolTheorems

  // ---------------------------------------------------------------- doomed states

  /** The parent has collected the stop with signal SIGCONT and is about to write the resume event. */
  predicate ResumeComing(pp: ParentPc) {
    InResume(pp) && !pp.at.Broadcast? && !pp.at.UnlockEvent? && !pp.at.UnlockState?
  }

  /** The slot holds the resume event and the fetcher can still look before it is overwritten. */
  predicate ResumeThere(pp: ParentPc, e: TraceEvent) {
    e == ResumeEvent && !(pp.SetState? && pp.at.WriteEvent?)
  }

  predicate Dead(c: Child) {
    c.status.Zombie? || c.status.Reaped?
  }

  /** The child ended with anything but exit status 0. */
  predicate Unclean(c: Child) {
    c.status == Zombie(false) || c.status == Reaped(false)
  }

  /** The SIGSTOP went to a child that can no longer stop. */
  predicate StopLost(s: State) {
    PhaseOf(s.fp).AskedStop? && Dead(s.child)
  }

  /** The resume event will not come, or came and is gone. */
  predicate ResumeLost(s: State) {
    && PhaseOf(s.fp).AskedCont?
    && !s.child.contStop && !ResumeComing(s.pp) && !ResumeThere(s.pp, s.event)
  }

  /** A device operation or the fetch of a round has failed, and `goto exit` is next. */
  predicate Failing(fp: FetcherPc) {
    || (fp.SinksOffUnlock? && !fp.ok)
    || (fp.FetchUnlock? && !fp.last && !fp.ok)
    || (fp.SinksOnUnlock? && !fp.ok)
  }

  predicate RoundFailed(s: State) {
    s.rounds.aborted || Failing(s.fp)
  }

  /** No continuation exports anything. */
  predicate Doomed(s: State) {
    RoundFailed(s) || Unclean(s.child) || StopLost(s) || ResumeLost(s)
  }

  lemma FailedFetcher(s: State, m: Move)
    requires Core(s) && FetcherCan(s, m) && RoundFailed(s)
    ensures FetcherStep(s, m).rounds.aborted
  {
  }

  lemma FailedStep(s: State, l: Label)
    requires Core(s) && Can(s, l) && RoundFailed(s)
    ensures RoundFailed(Step(s, l))
  {
    match l
    case ParentMove(_) =>
    case FetcherMove(m) => FailedFetcher(s, m);
    case _ =>
  }

  lemma UncleanParent(s: State, m: Move)
    requires Core(s) && ParentCan(s, m) && Unclean(s.child)
    ensures Unclean(ParentStep(s, m).child)
  {
  }

  lemma UncleanStep(s: State, l: Label)
    requires Core(s) && Can(s, l) && Unclean(s.child)
    ensures Unclean(Step(s, l).child)
  {
    match l
    case ParentMove(m) => UncleanParent(s, m);
    case FetcherMove(m) => DeadFetcher(s, m);
    case _ =>
  }

  lemma DeadParent(s: State, m: Move)
    requires Core(s) && ParentCan(s, m) && Dead(s.child)
    ensures Dead(ParentStep(s, m).child)
  {
  }

  lemma DeadFetcher(s: State, m: Move)
    requires Core(s) && FetcherCan(s, m) && Dead(s.child)
    ensures FetcherStep(s, m).child == s.child
  {
  }

  lemma DeadStep(s: State, l: Label)
    requires Core(s) && Can(s, l) && Dead(s.child)
    ensures Dead(Step(s, l).child)
  {
    match l
    case ParentMove(m) => DeadParent(s, m);
    case FetcherMove(m) => DeadFetcher(s, m);
    case _ =>
  }

  lemma StopLostParent(s: State, m: Move)
    requires Core(s) && ParentCan(s, m) && StopLost(s)
    ensures PhaseOf(ParentStep(s, m).fp).AskedStop?
  {
  }

  lemma StopLostFetcher(s: State, m: Move)
    requires Core(s) && FetcherCan(s, m) && StopLost(s)
    ensures PhaseOf(FetcherStep(s, m).fp).AskedStop?
  {
  }

  lemma StopLostStep(s: State, l: Label)
    requires Core(s) && Can(s, l) && StopLost(s)
    ensures StopLost(Step(s, l))
  {
    DeadStep(s, l);
    match l
    case ParentMove(m) => StopLostParent(s, m);
    case FetcherMove(m) => StopLostFetcher(s, m);
    case _ =>
  }

  lemma ResumeLostSet(s: State, m: Move)
    requires Core(s) && ParentCan(s, m) && ResumeLost(s) && s.pp.SetState?
    ensures ResumeLost(ParentStep(s, m))
  {
    match s.pp.at
    case LockState =>
    case WriteState =>
    case Dispatch(_) =>
    case LockEvent(_) =>
    case WriteEvent(_) =>
    case Broadcast =>
    case UnlockEvent =>
    case UnlockState =>
  }

  lemma ResumeLostParent(s: State, m: Move)
    requires Core(s) && ParentCan(s, m) && ResumeLost(s) && !s.pp.SetState?
    ensures ResumeLost(ParentStep(s, m))
  {
  }

  lemma ResumeLostFetcher(s: State, m: Move)
    requires Core(s) && FetcherCan(s, m) && ResumeLost(s)
    ensures ResumeLost(FetcherStep(s, m))
  {
  }

  lemma ResumeLostStep(s: State, l: Label)
    requires Core(s) && Can(s, l) && ResumeLost(s)
    ensures ResumeLost(Step(s, l))
  {
    match l
    case ParentMove(m) => if s.pp.SetState? { ResumeLostSet(s, m); } else { ResumeLostParent(s, m); }
    case FetcherMove(m) => ResumeLostFetcher(s, m);
    case _ =>
  }

  lemma DoomedStep(s: State, l: Label)
    requires Core(s) && Can(s, l) && Doomed(s)
    ensures Doomed(Step(s, l))
  {
    if RoundFailed(s) {
      FailedStep(s, l);
    } else if Unclean(s.child) {
      UncleanStep(s, l);
    } else if StopLost(s) {
      StopLostStep(s, l);
    } else {
      ResumeLostStep(s, l);
    }
  }

  lemma DoomedNeverExports(s: State)
    requires Core(s) && Doomed(s)
    ensures !s.pp.Export? && !s.pp.Finished?
  {
  }

  lemma {:induction false} DoomedForever(s: State, ls: seq<Label>)
    requires Inv(s) && Doomed(s) && Runs(s, ls)
    ensures Doomed(After(s, ls)) && After(s, ls).pp != Finished
    decreases |ls|
  {
    if ls == [] {
      DoomedNeverExports(s);
    } else {
      InvKept(s, ls[0]);
      DoomedStep(s, ls[0]);
      DoomedForever(Step(s, ls[0]), ls[1..]);
    }
  }

  lemma FailedFacts(s: State)
    requires Core(s) && RoundFailed(s)
    ensures s.child.status == Stopped && s.trace == SuspendedState && s.hist.exported == None
  {
  }

  /** A round that fails leaves the child stopped and the session open in every continuation. */
  lemma {:induction false} AbortIsFinal(s: State, ls: seq<Label>)
    requires Inv(s) && Runs(s, ls) && RoundFailed(s)
    ensures
      var t := After(s, ls);
      RoundFailed(t) && t.child.status == Stopped && t.trace == SuspendedState && t.hist.exported == None
    decreases |ls|
  {
    if ls == [] {
      FailedFacts(s);
    } else {
      InvKept(s, ls[0]);
      FailedStep(s, ls[0]);
      AbortIsFinal(Step(s, ls[0]), ls[1..]);
    }
  }

  lemma UncleanFacts(s: State)
    requires Core(s) && Unclean(s.child)
    ensures !Late(s.pp) && s.event != FiniEvent && s.hist.exported == None
  {
  }

  /** A child that does not exit with status 0 keeps the parent in its loop: nothing is exported. */
  lemma {:induction false} UncleanIsFinal(s: State, ls: seq<Label>)
    requires Inv(s) && Runs(s, ls) && Unclean(s.child)
    ensures
      var t := After(s, ls);
      Unclean(t.child) && !Late(t.pp) && t.event != FiniEvent && t.hist.exported == None
    decreases |ls|
  {
    if ls == [] {
      UncleanFacts(s);
    } else {
      InvKept(s, ls[0]);
      UncleanStep(s, ls[0]);
      UncleanIsFinal(Step(s, ls[0]), ls[1..]);
    }
  }

  // ---------------------------------------------------------------- a plan for the others

  predicate Asked(fp: FetcherPc) {
    PhaseOf(fp).AskedStop? || PhaseOf(fp).AskedCont?
  }

  /** The fetcher moves in a round, to give back the event mutex, to see its event, and during the join. */
  predicate FetcherTurn(s: State) {
    || PhaseOf(s.fp).InRound?
    || FetcherHoldsEvent(s.fp)
    || (Asked(s.fp) && Met(s.fp.goal, s.event) && !ParentHoldsEvent(s.pp))
    || (s.pp == Join && s.fp != Done)
  }

  /** What waitpid reports next. */
  function NextReport(fp: FetcherPc): Report {
    match PhaseOf(fp)
    case AskedStop => StopSig
    case AskedCont => ContStopSig
    case _ => Exited
  }

  /** What happens when the fetcher does not move: the child stops or ends, or the parent goes on. */
  function WorldTurn(s: State): Label {
    if s.child.status == Running && PhaseOf(s.fp).AskedStop? then DeliverStop
    else if s.child.status == Running && !PhaseOf(s.fp).AskedCont? then ChildExit(true)
    else if s.pp == WaitChild then ParentMove(Collect(NextReport(s.fp)))
    else ParentMove(Go)
  }

  function FetcherGo(s: State): Move {
    if s.fp.FetchRead? then Take(|s.etb|) else Go
  }

  /** The next step towards the export. */
  function Plan(s: State): Label {
    if FetcherTurn(s) then FetcherMove(FetcherGo(s)) else WorldTurn(s)
  }

  // ---------------------------------------------------------------- its measure

  /** How far the fetcher is from the end of its conversation with the child. */
  function Talk(fp: FetcherPc): nat {
    match fp
    case Wait(Suspend, at) => if at.Seen? then 15 else 16
    case SinksOffLock => 14
    case SinksOffTry(_) => 13
    case SinksOffUnlock(_) => 12
    case FetchLock(last) => if last then 0 else 11
    case FetchRoom(last) => if last then 0 else 10
    case FetchRead(last) => if last then 0 else 9
    case FetchEmpty(last) => if last then 0 else 8
    case FetchUnlock(last, _) => if last then 0 else 7
    case SinksOnLock => 6
    case SinksOnWork => 5
    case SinksOnUnlock(_) => 4
    case SendCont => 3
    case Wait(Resume, at) => if at.Seen? then 0 else 2
    case _ => 0
  }

  function SetRest(at: SetPc): nat {
    match at
    case LockState => 7
    case WriteState => 6
    case Dispatch(_) => 5
    case LockEvent(_) => 4
    case WriteEvent(_) => 3
    case Broadcast => 2
    case UnlockEvent => 1
    case UnlockState => 0
  }

  /** How far the parent is from its end when no more suspends or resumes come. */
  function Way(pp: ParentPc): nat {
    match pp
    case CreateFetcher => 100
    case SetState(AtReady, at) => 90 + SetRest(at)
    case EnableLock => 82
    case EnableWork => 81
    case EnableUnlock => 80
    case SetState(AtStart, at) => 70 + SetRest(at)
    case Detach => 69
    case SetState(AtSuspend, at) => 50 + SetRest(at)
    case SetState(AtResume, at) => 50 + SetRest(at)
    case WaitChild => 49
    case DisableLock => 39
    case DisableTry(_) => 38
    case DisableUnlock(_) => 37
    case SetState(AtStop, at) => 20 + SetRest(at)
    case SetState(AtFini, at) => 10 + SetRest(at)
    case Join => 2
    case Export => 1
    case Finished => 0
  }

  /** How far the parent and the child are from what the fetcher waits for. */
  function World(s: State): nat {
    if (PhaseOf(s.fp).AskedStop? && InSuspend(s.pp)) || (PhaseOf(s.fp).AskedCont? && InResume(s.pp))
    then SetRest(s.pp.at)
    else 10 + Way(s.pp) + (if s.child.status == Running then 1 else 0)
  }

  /** How far the fetcher is from seeing its event, or from giving back the event mutex. */
  function Look(s: State): nat {
    if s.pp == Join then Remaining(s.fp)
    else if !s.fp.Wait? then 0
    else if Asked(s.fp) && Met(s.fp.goal, s.event) then WaitRemaining(s.fp.at)
    else if s.fp.at.Holding? then 2
    else if s.fp.at.Seen? then 1
    else 0
  }

  predicate Below(s: State, t: State) {
    || Talk(t.fp) < Talk(s.fp)
    || (Talk(t.fp) == Talk(s.fp) && World(t) < World(s))
    || (Talk(t.fp) == Talk(s.fp) && World(t) == World(s) && Look(t) < Look(s))
  }

  /** `l` is possible, spoils nothing and comes nearer. */
  predicate Good(s: State, l: Label) {
    Can(s, l) && !Doomed(Step(s, l)) && Below(s, Step(s, l))
  }

  lemma SwitchNear(s: State)
    requires Mutexes(s) && Phases(s) && !Failing(s.fp) && (InSinksOff(s.fp) || InSinksOn(s.fp))
    ensures FetcherCan(s, FetcherGo(s)) && Below(s, FetcherStep(s, FetcherGo(s)))
  {
    match s.fp
    case SinksOffLock =>
    case SinksOffTry(_) =>
    case SinksOffUnlock(_) =>
    case SinksOnLock =>
    case SinksOnWork =>
    case SinksOnUnlock(_) =>
    case SendCont =>
  }

  lemma SwitchSafe(s: State)
    requires Phases(s) && Counts(s) && !Doomed(s) && (InSinksOff(s.fp) || InSinksOn(s.fp))
    requires FetcherCan(s, FetcherGo(s))
    ensures !Doomed(FetcherStep(s, FetcherGo(s)))
  {
    match s.fp
    case SinksOffLock =>
    case SinksOffTry(_) =>
    case SinksOffUnlock(_) =>
    case SinksOnLock =>
    case SinksOnWork =>
    case SinksOnUnlock(_) =>
    case SendCont =>
  }

  lemma FetchNear(s: State)
    requires Mutexes(s) && Phases(s) && !Failing(s.fp) && Fetching(s.fp) && !s.fp.last
    ensures FetcherCan(s, FetcherGo(s)) && Below(s, FetcherStep(s, FetcherGo(s)))
  {
    match s.fp
    case FetchLock(_) =>
    case FetchRoom(_) =>
    case FetchRead(_) =>
    case FetchEmpty(_) =>
    case FetchUnlock(_, _) =>
  }

  lemma FetchSafe(s: State)
    requires Phases(s) && Counts(s) && !Doomed(s) && Fetching(s.fp) && !s.fp.last
    requires FetcherCan(s, FetcherGo(s))
    ensures !Doomed(FetcherStep(s, FetcherGo(s)))
  {
    match s.fp
    case FetchLock(_) =>
    case FetchRoom(_) =>
    case FetchRead(_) =>
    case FetchEmpty(_) =>
    case FetchUnlock(_, _) =>
  }

  lemma TestNear(s: State)
    requires s.fp.Wait? && s.fp.at.Holding? && s.pp != Join
    ensures FetcherCan(s, Go) && Below(s, FetcherStep(s, Go))
  {
  }

  lemma SeenNear(s: State)
    requires s.fp.Wait? && s.fp.at.Seen? && s.pp != Join
    ensures FetcherCan(s, Go) && Below(s, FetcherStep(s, Go))
  {
  }

  lemma TestSafe(s: State)
    requires Phases(s) && Mutexes(s) && !Doomed(s) && s.fp.Wait? && s.fp.at.Holding?
    requires FetcherCan(s, Go)
    ensures !Doomed(FetcherStep(s, Go))
  {
  }

  lemma SeenSafe(s: State)
    requires Phases(s) && !Doomed(s) && s.fp.Wait? && s.fp.at.Seen?
    requires FetcherCan(s, Go)
    ensures !Doomed(FetcherStep(s, Go))
  {
  }

  /** The event is there: the fetcher goes and looks. */
  lemma LookNear(s: State)
    requires Mutexes(s) && Wakes(s) && Asked(s.fp) && Met(s.fp.goal, s.event)
    requires !ParentHoldsEvent(s.pp) && !FetcherHoldsEvent(s.fp)
    ensures FetcherCan(s, Go) && Below(s, FetcherStep(s, Go))
  {
  }

  lemma LookSafe(s: State)
    requires Phases(s) && !Doomed(s) && Asked(s.fp) && !FetcherHoldsEvent(s.fp)
    requires FetcherCan(s, Go)
    ensures !Doomed(FetcherStep(s, Go))
  {
  }

  lemma JoinNear(s: State)
    requires Core(s) && s.event == FiniEvent && !Stuck(s.fp) && s.pp == Join && s.fp != Done
    ensures FetcherCan(s, FetcherGo(s))
    ensures
      var t := FetcherStep(s, FetcherGo(s));
      !Stuck(t.fp) && Remaining(t.fp) < Remaining(s.fp) && t.pp == s.pp && t.event == s.event && t.child == s.child
  {
    FiniFacts(s);
    FiniFetcherStep(s, FetcherGo(s));
  }

  lemma JoinTalk(fp: FetcherPc)
    requires !PhaseOf(fp).InRound? && !Stuck(fp)
    ensures Talk(fp) == 0
  {
  }

  lemma JoinGood(s: State)
    requires Core(s) && !Doomed(s) && s.pp == Join && s.fp != Done
    ensures Good(s, FetcherMove(FetcherGo(s)))
  {
    JoinNear(s);
    var m := FetcherGo(s);
    FetcherKept(s, m);
    JoinStep(s, FetcherStep(s, m));
  }

  /** With the fini event in the slot, fewer remaining steps are all that counts. */
  lemma JoinStep(s: State, t: State)
    requires Core(s) && Core(t) && s.pp == t.pp == Join && !Stuck(s.fp) && !Stuck(t.fp)
    requires s.child == t.child && Remaining(t.fp) < Remaining(s.fp)
    ensures !Doomed(t) && Below(s, t)
  {
    FiniFacts(s);
    FiniFacts(t);
    FiniNotDoomed(t);
    JoinTalk(s.fp);
    JoinTalk(t.fp);
  }

  lemma ChildGood(s: State)
    requires Core(s) && !Doomed(s) && !FetcherTurn(s) && s.child.status == Running && !PhaseOf(s.fp).AskedCont?
    ensures Good(s, WorldTurn(s))
  {
  }

  lemma CollectGood(s: State)
    requires Children(s) && Phases(s) && Slots(s) && Counts(s)
    requires !Doomed(s) && !FetcherTurn(s) && s.pp == WaitChild
    requires s.child.status == Running ==> PhaseOf(s.fp).AskedCont?
    ensures Good(s, WorldTurn(s))
  {
    match PhaseOf(s.fp)
    case AskedStop =>
    case AskedCont =>
    case _ =>
  }

  lemma SetEnterNear(s: State)
    requires Mutexes(s) && !FetcherHoldsEvent(s.fp) && s.pp.SetState? && SetRest(s.pp.at) >= 4
    ensures ParentCan(s, Go) && Below(s, ParentStep(s, Go))
  {
    match s.pp.at
    case LockState =>
    case WriteState =>
    case Dispatch(_) =>
    case LockEvent(_) =>
  }

  lemma SetWriteNear(s: State)
    requires Mutexes(s) && !FetcherHoldsEvent(s.fp) && s.pp.SetState? && 0 < SetRest(s.pp.at) < 4
    ensures ParentCan(s, Go) && Below(s, ParentStep(s, Go))
  {
    match s.pp.at
    case WriteEvent(_) =>
    case Broadcast =>
    case UnlockEvent =>
  }

  lemma SetLeaveNear(s: State)
    requires Mutexes(s) && Slots(s) && !FetcherTurn(s) && s.pp.SetState? && s.pp.at == UnlockState
    ensures ParentCan(s, Go) && Below(s, ParentStep(s, Go))
  {
  }

  lemma SetEnterSafe(s: State)
    requires Slots(s) && Phases(s) && !Doomed(s) && !FetcherTurn(s) && s.pp.SetState? && SetRest(s.pp.at) >= 4
    requires ParentCan(s, Go)
    ensures !Doomed(ParentStep(s, Go))
  {
    match s.pp.at
    case LockState =>
    case WriteState =>
    case Dispatch(_) =>
    case LockEvent(_) =>
  }

  lemma SetWriteSafe(s: State)
    requires Slots(s) && Phases(s) && !Doomed(s) && !FetcherTurn(s) && s.pp.SetState? && 0 < SetRest(s.pp.at) < 4
    requires ParentCan(s, Go)
    ensures !Doomed(ParentStep(s, Go))
  {
    match s.pp.at
    case WriteEvent(_) =>
    case Broadcast =>
    case UnlockEvent =>
  }

  lemma SetLeaveSafe(s: State)
    requires Slots(s) && Phases(s) && !Doomed(s) && !FetcherTurn(s) && s.pp.SetState? && s.pp.at == UnlockState
    requires ParentCan(s, Go)
    ensures !Doomed(ParentStep(s, Go))
  {
  }

  /** Nobody is in the parent's way. */
  lemma ParentFree(s: State)
    requires Mutexes(s) && Slots(s) && Phases(s) && !FetcherTurn(s)
    requires !s.pp.SetState? && s.pp != WaitChild && s.pp != Finished
    ensures ParentCan(s, Go)
  {
  }

  lemma ParentNear(s: State)
    requires Slots(s) && Phases(s) && !s.pp.SetState? && s.pp != WaitChild && ParentCan(s, Go)
    ensures Below(s, ParentStep(s, Go))
  {
    match s.pp
    case CreateFetcher =>
    case EnableLock =>
    case EnableWork =>
    case EnableUnlock =>
    case Detach =>
    case DisableLock =>
    case DisableTry(_) =>
    case DisableUnlock(_) =>
    case Join =>
    case Export =>
  }

  lemma ParentSafe(s: State)
    requires Slots(s) && Phases(s) && !Doomed(s) && !FetcherTurn(s)
    requires !s.pp.SetState? && s.pp != WaitChild
    requires ParentCan(s, Go)
    ensures !Doomed(ParentStep(s, Go))
  {
  }

  lemma SetGood(s: State)
    requires Core(s) && !Doomed(s) && !FetcherTurn(s) && s.pp.SetState?
    requires s.child.status == Running ==> PhaseOf(s.fp).AskedCont?
    ensures Good(s, ParentMove(Go))
  {
    if SetRest(s.pp.at) >= 4 {
      SetEnterNear(s);
      SetEnterSafe(s);
    } else if SetRest(s.pp.at) > 0 {
      SetWriteNear(s);
      SetWriteSafe(s);
    } else {
      SetLeaveNear(s);
      SetLeaveSafe(s);
    }
  }

  /** The event mutex is given back, whatever the fetcher saw. */
  lemma MutexGood(s: State)
    requires Core(s) && !Doomed(s) && FetcherHoldsEvent(s.fp) && s.pp != Join
    ensures Good(s, FetcherMove(Go))
  {
    if s.fp.at.Holding? {
      TestNear(s);
      TestSafe(s);
    } else {
      SeenNear(s);
      SeenSafe(s);
    }
  }

  lemma RoundGood(s: State)
    requires Core(s) && !Doomed(s) && PhaseOf(s.fp).InRound?
    ensures Good(s, FetcherMove(FetcherGo(s)))
  {
    if s.fp.Wait? {
      MutexGood(s);
    } else if Fetching(s.fp) {
      FetchNear(s);
      FetchSafe(s);
    } else {
      SwitchNear(s);
      SwitchSafe(s);
    }
  }

  lemma WorldGood(s: State)
    requires Core(s) && !Doomed(s) && s.pp != Finished && !FetcherTurn(s)
    ensures Good(s, WorldTurn(s))
  {
    if s.child.status == Running && !PhaseOf(s.fp).AskedCont? {
      ChildGood(s);
    } else if s.pp == WaitChild {
      CollectGood(s);
    } else if s.pp.SetState? {
      SetGood(s);
    } else {
      ParentFree(s);
      ParentNear(s);
      ParentSafe(s);
    }
  }

  lemma PlanGood(s: State)
    requires Core(s) && !Doomed(s) && s.pp != Finished
    ensures Good(s, Plan(s))
  {
    if !FetcherTurn(s) {
      WorldGood(s);
    } else if PhaseOf(s.fp).InRound? {
      RoundGood(s);
    } else if s.pp == Join && s.fp != Done {
      JoinGood(s);
    } else if FetcherHoldsEvent(s.fp) {
      MutexGood(s);
    } else {
      LookNear(s);
      LookSafe(s);
    }
  }

  /** One step of the plan. */
  lemma Nearer(s: State) returns (l: Label, t: State)
    requires Inv(s) && !Doomed(s) && s.pp != Finished
    ensures Can(s, l) && t == Step(s, l) && Inv(t) && !Doomed(t) && Below(s, t)
  {
    l := Plan(s);
    PlanGood(s);
    InvKept(s, l);
    t := Step(s, l);
  }

  lemma Prepend(s: State, l: Label, rest: seq<Label>)
    requires Can(s, l) && Runs(Step(s, l), rest)
    ensures Runs(s, [l] + rest) && After(s, [l] + rest) == After(Step(s, l), rest)
  {
    assert ([l] + rest)[1..] == rest;
  }

  /** Following the plan ends in an export. */
  lemma {:induction false} Finish(s: State) returns (ls: seq<Label>)
    requires Inv(s) && !Doomed(s)
    ensures Runs(s, ls) && After(s, ls).pp == Finished
    decreases Talk(s.fp), World(s), Look(s)
  {
    if s.pp == Finished {
      ls := [];
    } else {
      var l, t := Nearer(s);
      var rest := Finish(t);
      Prepend(s, l, rest);
      ls := [l] + rest;
    }
  }

  /** From a reachable state an export can still be reached exactly when the state is not doomed. */
  lemma ExportReachableIff(s: State)
    requires Reachable(s)
    ensures (exists more :: Runs(s, more) && After(s, more).pp == Finished) <==> !Doomed(s)
  {
    InvAlways(s);
    if Doomed(s) {
      forall more | Runs(s, more) ensures After(s, more).pp != Finished {
        DoomedForever(s, more);
      }
    } else {
      var more := Finish(s);
    }
  }

  lemma StuckForever(s: State, more: seq<Label>)
    requires Inv(s) && s.event == FiniEvent && Stuck(s.fp) && Runs(s, more)
    ensures After(s, more).fp != Done
  {
    FiniBound(s, more);
    StuckNotDone(After(s, more).fp);
  }

  lemma StuckNotDone(fp: FetcherPc)
    requires Stuck(fp)
    ensures fp != Done
  {
  }

  lemma DriveToDone(s: State) returns (more: seq<Label>)
    requires Inv(s) && s.event == FiniEvent && !Stuck(s.fp)
    ensures Runs(s, more) && After(s, more).fp == Done
  {
    FiniNotDoomed(s);
    more := Finish(s);
    InvAlong(s, more);
    assert Exports(After(s, more));
  }

  /** Once the fini event is signalled that is exactly when the fetcher is in neither of its two waits. */
  lemma JoinReturnsIff(s: State)
    requires Reachable(s) && s.event == FiniEvent
    ensures (exists more :: Runs(s, more) && After(s, more).fp == Done) <==> !Stuck(s.fp)
  {
    InvAlways(s);
    if Stuck(s.fp) {
      forall more | Runs(s, more) ensures After(s, more).fp != Done {
        StuckForever(s, more);
      }
    } else {
      var more := DriveToDone(s);
    }
  }

  lemma FiniNotDoomed(s: State)
    requires Core(s) && s.event == FiniEvent && !Stuck(s.fp)
    ensures !Doomed(s)
  {
    FiniFacts(s);
  }
}
