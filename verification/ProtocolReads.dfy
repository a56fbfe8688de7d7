/**
  What a run's fetches deliver is what its reads returned: chunk by chunk, with the cursor where
  the last read left it. How often the devices are tried before a disable gives up, and that a
  fetcher that has left the polling loop never suspends the child again.
*/
module ProtocolReads {
  import opened Common
  import opened Chunks
  import opened TraceProtocol
  import opened ProtocolInvariant
  import opened ProtocolTheorems

  // ---------------------------------------------------------------- reads

  /** How one fetch_trace went: bytes read, a negative result, or a failed mremap. */
  datatype Outcome = Got(n: nat) | Negative(code: nat) | NoRoom

  /** The outcome that label `l` decides in state `s`, if any. */
  function OutcomeOf(s: State, l: Label): seq<Outcome> {
    if !l.FetcherMove? then []
    else if s.fp.FetchRead? then
      (match l.m case Take(n) => [Got(n)] case Misread(code) => [Negative(code)] case _ => [])
    else if s.fp.FetchRoom? && l.m.Fail? then [NoRoom]
    else []
  }

  /** The outcomes of all fetches of a run, in order. */
  ghost function Outcomes(s: State, ls: seq<Label>): seq<Outcome>
    requires Runs(s, ls)
    decreases |ls|
  {
    if ls == [] then [] else OutcomeOf(s, ls[0]) + Outcomes(Step(s, ls[0]), ls[1..])
  }

  function Taken(o: Outcome): nat {
    if o.Got? then o.n else 0
  }

  function BackBy(o: Outcome): nat {
    if o.Negative? then o.code else 0
  }

  /** The chunks have the lengths the outcomes say. */
  predicate Deliver(chunks: seq<seq<byte>>, os: seq<Outcome>) {
    |chunks| == |os| && forall i | 0 <= i < |os| :: |chunks[i]| == Taken(os[i])
  }

  /** Where a run with these outcomes leaves the cursor, from `back`. */
  function BackAfter(back: nat, os: seq<Outcome>): nat {
    if os == [] then back else BackBy(os[|os| - 1])
  }

  lemma DeliverStep(s: State, l: Label, os: seq<Outcome>)
    requires Can(s, l) && Deliver(FetchedChunks(s.hist.log), os)
    ensures Deliver(FetchedChunks(Step(s, l).hist.log), os + OutcomeOf(s, l))
    ensures Step(s, l).back == BackAfter(s.back, OutcomeOf(s, l))
  {
    if !MovesBytes(s, l) {
      BytesUntouched(s, l);
    } else if l.FetcherMove? {
      FetchDeliver(s, l.m, os);
    }
  }

  lemma DeliverSnoc(chunks: seq<seq<byte>>, os: seq<Outcome>, c: seq<byte>, o: Outcome)
    requires Deliver(chunks, os) && |c| == Taken(o)
    ensures Deliver(chunks + [c], os + [o])
  {
  }

  lemma FetchDeliver(s: State, m: Move, os: seq<Outcome>)
    requires FetcherCan(s, m) && (s.fp.FetchRoom? || s.fp.FetchRead? || s.fp.FetchEmpty?)
    requires Deliver(FetchedChunks(s.hist.log), os)
    ensures Deliver(FetchedChunks(FetcherStep(s, m).hist.log), os + OutcomeOf(s, FetcherMove(m)))
    ensures FetcherStep(s, m).back == BackAfter(s.back, OutcomeOf(s, FetcherMove(m)))
  {
    if s.fp.FetchRoom? {
      RoomDeliver(s, m, os);
    } else if s.fp.FetchRead? {
      ReadDeliver(s, m, os);
    } else {
      assert os + [] == os;
      LogSnoc(s.hist.log, Dropped(s.etb));
      assert FetcherStep(s, m).hist.log == s.hist.log + [Dropped(s.etb)];
    }
  }

  lemma RoomDeliver(s: State, m: Move, os: seq<Outcome>)
    requires FetcherCan(s, m) && s.fp.FetchRoom? && Deliver(FetchedChunks(s.hist.log), os)
    ensures Deliver(FetchedChunks(FetcherStep(s, m).hist.log), os + OutcomeOf(s, FetcherMove(m)))
    ensures FetcherStep(s, m).back == BackAfter(s.back, OutcomeOf(s, FetcherMove(m)))
  {
    if m.Fail? {
      LogSnoc(s.hist.log, Fetched([]));
      DeliverSnoc(FetchedChunks(s.hist.log), os, [], NoRoom);
      assert FetcherStep(s, m).hist.log == s.hist.log + [Fetched([])];
    } else {
      assert os + [] == os;
    }
  }

  lemma ReadDeliver(s: State, m: Move, os: seq<Outcome>)
    requires FetcherCan(s, m) && s.fp.FetchRead? && Deliver(FetchedChunks(s.hist.log), os)
    ensures Deliver(FetchedChunks(FetcherStep(s, m).hist.log), os + OutcomeOf(s, FetcherMove(m)))
    ensures FetcherStep(s, m).back == BackAfter(s.back, OutcomeOf(s, FetcherMove(m)))
  {
    var c := if m.Take? then s.etb[..m.n] else [];
    var o := if m.Take? then Got(m.n) else Negative(m.code);
    ReadEffect(s, m, c, o);
    LogSnoc(s.hist.log, Fetched(c));
    DeliverSnoc(FetchedChunks(s.hist.log), os, c, o);
  }

  lemma ReadEffect(s: State, m: Move, c: seq<byte>, o: Outcome)
    requires FetcherCan(s, m) && s.fp.FetchRead?
    requires if m.Take? then c == s.etb[..m.n] && o == Got(m.n) else c == [] && m.Misread? && o == Negative(m.code)
    ensures FetcherStep(s, m).hist.log == s.hist.log + [Fetched(c)] && FetcherStep(s, m).back == BackBy(o)
    ensures OutcomeOf(s, FetcherMove(m)) == [o] && |c| == Taken(o)
  {
  }

  lemma BackAfterConcat(back: nat, a: seq<Outcome>, b: seq<Outcome>)
    ensures BackAfter(BackAfter(back, a), b) == BackAfter(back, a + b)
  {
    assert a + [] == a;
  }

  lemma {:induction false} DeliverAlong(s: State, ls: seq<Label>, os: seq<Outcome>)
    requires Runs(s, ls) && Deliver(FetchedChunks(s.hist.log), os)
    ensures Deliver(FetchedChunks(After(s, ls).hist.log), os + Outcomes(s, ls))
    ensures After(s, ls).back == BackAfter(s.back, Outcomes(s, ls))
    decreases |ls|
  {
    if ls == [] {
      assert os + Outcomes(s, ls) == os;
    } else {
      var o := OutcomeOf(s, ls[0]);
      DeliverStep(s, ls[0], os);
      var rest := Outcomes(Step(s, ls[0]), ls[1..]);
      DeliverAlong(Step(s, ls[0]), ls[1..], os + o);
      BackAfterConcat(s.back, o, rest);
      assert os + o + rest == os + (o + rest);
    }
  }

  /**
    Over every run: the fetched chunks have, in order, the lengths that cs_get_trace_data
    returned, none for a negative result or a failed mremap; and the cursor stands before the end
    of the data by the code of the last fetch if that was negative, else not at all.
  */
  lemma FetchesAsRead(ls: seq<Label>)
    requires Runs(Initial(), ls)
    ensures
      var t := After(Initial(), ls);
      var os := Outcomes(Initial(), ls);
      && Deliver(FetchedChunks(t.hist.log), os)
      && t.back == (if os != [] && os[|os| - 1].Negative? then os[|os| - 1].code else 0)
  {
    DeliverAlong(Initial(), ls, []);
    assert [] + Outcomes(Initial(), ls) == Outcomes(Initial(), ls);
  }

  /** A fetch that returns 0 leaves nothing in the ETB: what a short read did not take is gone. */
  lemma FetchEmpties(s: State)
    requires Reachable(s) && s.fp.FetchUnlock? && s.fp.ok && (s.fp.last ==> s.hist.fullyOff)
    ensures s.etb == []
  {
    InvAlways(s);
  }

  // ---------------------------------------------------------------- retries

  function ParentMoves(ls: seq<Label>): nat {
    if ls == [] then 0 else (if ls[0].ParentMove? then 1 else 0) + ParentMoves(ls[1..])
  }

  predicate ParentFails(ls: seq<Label>) {
    forall l | l in ls :: l.ParentMove? ==> l.m.Fail?
  }

  predicate FetcherFails(ls: seq<Label>) {
    forall l | l in ls :: l.FetcherMove? ==> l.m.Fail?
  }

  lemma DisablePcKept(s: State, l: Label)
    requires Can(s, l) && s.pp.DisableTry? && (l.ParentMove? ==> l.m.Fail?)
    ensures !l.ParentMove? ==> Step(s, l).pp == s.pp
    ensures l.ParentMove? ==>
      Step(s, l).pp == if s.pp.failed + 1 < 8 then DisableTry(s.pp.failed + 1) else DisableUnlock(false)
  {
    if l.FetcherMove? { FetcherFrame(s, l.m); }
  }

  lemma UnlockPcKept(s: State, l: Label)
    requires Can(s, l) && s.pp.DisableUnlock? && !l.ParentMove?
    ensures Step(s, l).pp == s.pp
  {
    if l.FetcherMove? { FetcherFrame(s, l.m); }
  }

  /** The parent's disable is still being tried after seven failures and given up after the eighth. */
  lemma {:induction false} ParentTriesEight(s: State, ls: seq<Label>)
    requires Runs(s, ls) && ParentFails(ls)
    requires s.pp.DisableTry? && s.pp.failed < 8 && s.pp.failed + ParentMoves(ls) <= 8
    ensures
      var k := s.pp.failed + ParentMoves(ls);
      After(s, ls).pp == if k < 8 then DisableTry(k) else DisableUnlock(false)
    decreases |ls|
  {
    if ls != [] {
      assert ls[0] in ls;
      DisablePcKept(s, ls[0]);
      if Step(s, ls[0]).pp.DisableTry? {
        ParentTriesEight(Step(s, ls[0]), ls[1..]);
      } else {
        UnlockKept(Step(s, ls[0]), ls[1..]);
      }
    }
  }

  lemma {:induction false} UnlockKept(s: State, ls: seq<Label>)
    requires Runs(s, ls) && s.pp.DisableUnlock? && ParentMoves(ls) == 0
    ensures After(s, ls).pp == s.pp
    decreases |ls|
  {
    if ls != [] {
      UnlockPcKept(s, ls[0]);
      UnlockKept(Step(s, ls[0]), ls[1..]);
    }
  }

  lemma SinksOffPcKept(s: State, l: Label)
    requires Can(s, l) && s.pp != CreateFetcher && s.fp.SinksOffTry? && (l.FetcherMove? ==> l.m.Fail?)
    ensures !l.FetcherMove? ==> Step(s, l).fp == s.fp
    ensures l.FetcherMove? ==>
      Step(s, l).fp == if s.fp.failed + 1 < 8 then SinksOffTry(s.fp.failed + 1) else SinksOffUnlock(false)
  {
    if l.ParentMove? { OnlyNotifies(s, l.m); }
  }

  /** The parent moves the fetcher only by waking it. */
  lemma OnlyNotifies(s: State, m: Move)
    requires ParentCan(s, m) && !s.fp.Wait? && !s.fp.NotCreated?
    ensures s.pp != CreateFetcher ==> ParentStep(s, m).fp == s.fp
  {
  }

  /** So is the fetcher's, in a round. */
  lemma {:induction false} FetcherTriesEight(s: State, ls: seq<Label>)
    requires Runs(s, ls) && FetcherFails(ls) && s.pp != CreateFetcher
    requires s.fp.SinksOffTry? && s.fp.failed < 8 && s.fp.failed + FetcherSteps(ls) <= 8
    ensures
      var k := s.fp.failed + FetcherSteps(ls);
      After(s, ls).fp == if k < 8 then SinksOffTry(k) else SinksOffUnlock(false)
    decreases |ls|
  {
    if ls != [] {
      assert ls[0] in ls;
      SinksOffPcKept(s, ls[0]);
      NeverCreatesAgain(s, ls[0]);
      if Step(s, ls[0]).fp.SinksOffTry? {
        FetcherTriesEight(Step(s, ls[0]), ls[1..]);
      } else {
        SinksUnlockKept(Step(s, ls[0]), ls[1..]);
      }
    }
  }

  lemma NeverCreatesAgain(s: State, l: Label)
    requires Can(s, l) && s.pp != CreateFetcher
    ensures Step(s, l).pp != CreateFetcher
  {
    if l.FetcherMove? { FetcherFrame(s, l.m); }
  }

  lemma {:induction false} SinksUnlockKept(s: State, ls: seq<Label>)
    requires Runs(s, ls) && s.fp.SinksOffUnlock? && FetcherSteps(ls) == 0 && s.pp != CreateFetcher
    ensures After(s, ls).fp == s.fp
    decreases |ls|
  {
    if ls != [] {
      NeverCreatesAgain(s, ls[0]);
      if ls[0].ParentMove? { OnlyNotifies(s, ls[0].m); }
      SinksUnlockKept(Step(s, ls[0]), ls[1..]);
    }
  }

  // ---------------------------------------------------------------- leaving the loop

  /** Past the polling loop: waiting for the stop event, in the last fetch, or back in the worker. */
  predicate LoopLeft(s: State) {
    || (s.fp.Wait? && s.fp.goal == StopOrFini)
    || PhaseOf(s.fp).Closing?
    || PhaseOf(s.fp).Leaving?
    || (PhaseOf(s.fp).Idle? && s.rounds.polls == 1)
  }

  lemma LoopLeftFetcher(s: State, m: Move)
    requires Phases(s) && Counts(s) && Sights(s) && FetcherCan(s, m) && LoopLeft(s)
    ensures LoopLeft(FetcherStep(s, m)) && FetcherStep(s, m).rounds == s.rounds
  {
    if s.fp.Wait? {
      LeftWait(s, m);
    }
  }

  lemma LeftWait(s: State, m: Move)
    requires Phases(s) && Counts(s) && Sights(s) && FetcherCan(s, m) && LoopLeft(s) && s.fp.Wait?
    ensures LoopLeft(FetcherStep(s, m)) && FetcherStep(s, m).rounds == s.rounds
  {
    match s.fp.at
    case WantLock =>
    case Holding =>
    case Asleep(_) =>
    case Seen(_) =>
  }

  lemma LoopLeftParent(s: State, m: Move)
    requires Born(s) && ParentCan(s, m) && LoopLeft(s)
    ensures LoopLeft(ParentStep(s, m)) && ParentStep(s, m).rounds.stopsSent == s.rounds.stopsSent
  {
  }

  lemma LoopLeftStep(s: State, l: Label)
    requires Core(s) && Can(s, l) && LoopLeft(s)
    ensures LoopLeft(Step(s, l)) && Step(s, l).rounds.stopsSent == s.rounds.stopsSent
  {
    match l
    case ParentMove(m) => LoopLeftParent(s, m);
    case FetcherMove(m) => LoopLeftFetcher(s, m);
    case _ =>
  }

  lemma {:induction false} LoopLeftForever(s: State, ls: seq<Label>)
    requires Inv(s) && LoopLeft(s) && Runs(s, ls)
    ensures LoopLeft(After(s, ls)) && After(s, ls).rounds.stopsSent == s.rounds.stopsSent
    decreases |ls|
  {
    if ls != [] {
      InvKept(s, ls[0]);
      LoopLeftStep(s, ls[0]);
      LoopLeftForever(Step(s, ls[0]), ls[1..]);
    }
  }

  /** The probe found no process, or the SIGSTOP failed. */
  predicate KillFails(s: State, m: Move) {
    || (s.fp == Probe && s.child.status.Reaped?)
    || (s.fp == SendStop && (s.child.status.Reaped? || m.Fail?))
  }

  /**
    When kill fails in the polling loop, for whatever reason, the loop is left for good: in every
    continuation no further SIGSTOP is sent and no further round is run.
  */
  lemma KillFailureEndsPolling(s: State, m: Move, ls: seq<Label>)
    requires Reachable(s) && FetcherCan(s, m) && KillFails(s, m) && Runs(FetcherStep(s, m), ls)
    ensures
      var t := After(FetcherStep(s, m), ls);
      t.rounds.stopsSent == s.rounds.stopsSent && !PhaseOf(t.fp).InRound? && !PhaseOf(t.fp).AskedStop?
  {
    InvAlways(s);
    InvKept(s, FetcherMove(m));
    LoopLeftNow(s, m);
    LoopLeftForever(FetcherStep(s, m), ls);
    LeftPhases(After(FetcherStep(s, m), ls));
  }

  lemma LoopLeftNow(s: State, m: Move)
    requires FetcherCan(s, m) && KillFails(s, m)
    ensures LoopLeft(FetcherStep(s, m)) && FetcherStep(s, m).rounds == s.rounds
  {
  }

  lemma LeftPhases(s: State)
    requires LoopLeft(s)
    ensures !PhaseOf(s.fp).InRound? && !PhaseOf(s.fp).AskedStop?
  {
  }
}
