/**
  The routines of config.c as programs over CSAL calls, and the two wrappers of common.c around
  them: enable_cs_trace with its first-time path, disable_cs_trace with its retries.
*/
module CoreSight {
  import opened Common
  import opened Devices
  import opened DeviceSafety

  // ---------------------------------------------------------------- specification

  function PrepareOps(n: nat): seq<Op> {
    if n == 0 then [] else PrepareOps(n - 1) + [Check(true)] + [Check(true)] + [Check(true)]
  }

  function RangeOps(n: nat): seq<Op> {
    if n == 0 then [] else RangeOps(n - 1) + [Check(false)] + [Gate]
  }

  /** configure_trace: sinks quiet, per-CPU ids and ETM reset, per-CPU ranges with the error check inside. */
  function ConfigureScript(b: Board): seq<Op> {
    QuietOps(b) + PrepareOps(b.nCpu) + [Check(true)] + [Check(false)]
    + RangeOps(b.nCpu) + [Check(false)] + [Gate]
  }

  function QuietOps(b: Board): seq<Op> {
    [if b.hasTpiu then Switch(Tpiu, false, false) else Check(false)] + [Switch(Etb, false, false)]
  }

  /** enable_cs_trace: configure and enable everything the first time, the sinks alone afterwards. */
  function EnableOps(b: Board, first: bool): seq<Op> {
    if first then ConfigureScript(b) + EnableScript(b) else SinksOnScript(b)
  }

  function DisableOps(b: Board, all: bool): seq<Op> {
    if all then DisableScript(b) else SinksOffScript(b)
  }

  /** cs_reset_error_count after a failed attempt. */
  function Reset(r: Run): Run {
    Run(r.view.(errors := 0), r.ops, false)
  }

  /** The state in which attempt number `k` (from 0) starts. */
  function BeforeAttempt(c: Csal, r: Run, s: seq<Op>, k: nat): Run {
    if k == 0 then r else Reset(Exec(c, BeforeAttempt(c, r, s, k - 1), s))
  }

  predicate AttemptFails(c: Csal, r: Run, s: seq<Op>, k: nat) {
    Exec(c, BeforeAttempt(c, r, s, k), s).halted
  }

  /** What enable_cs_trace did, in order. */
  datatype Path = Configured(ok: bool) | FullEnable(ok: bool) | SinksOnly(ok: bool)

  /**
    Failed first-time pairs, then at most one successful pair, then only sinks-only calls.
    `first` is is_first_trace afterwards.
  */
  predicate Shape(log: seq<Path>, first: bool) {
    if log == [] then first
    else
      var n := |log| - 1;
      match log[n]
      case SinksOnly(_) => !first && Shape(log[..n], false)
      case Configured(ok) => !ok && first && Shape(log[..n], true)
      case FullEnable(ok) =>
        first == !ok && n > 0 && log[n - 1] == Configured(true) && Shape(log[..n - 1], true)
  }

  /** Reading the shape: at most one pair succeeds, and the sinks-only path comes only after it. */
  lemma {:induction false} SinksOnlyAfterPair(log: seq<Path>, first: bool, i: nat)
    requires Shape(log, first) && i < |log|
    ensures log[i].SinksOnly? ==> exists j | 0 < j < i :: log[j] == FullEnable(true) && log[j - 1] == Configured(true)
    decreases |log|
  {
    var n := |log| - 1;
    if log[n].SinksOnly? && i == n {
      var j := FindPair(log[..n]);
      assert log[j] == FullEnable(true) && log[j - 1] == Configured(true);
    } else if log[n].FullEnable? && i < n - 1 {
      SinksOnlyAfterPair(log[..n - 1], true, i);
    } else if !log[n].FullEnable? && i < n {
      SinksOnlyAfterPair(log[..n], log[n].Configured?, i);
    }
  }

  lemma {:induction false} FindPair(log: seq<Path>) returns (j: nat)
    requires Shape(log, false)
    ensures 0 < j < |log| && log[j] == FullEnable(true) && log[j - 1] == Configured(true)
    decreases |log|
  {
    var n := |log| - 1;
    if log[n].SinksOnly? {
      j := FindPair(log[..n]);
    } else {
      j := n;
    }
  }

  /** While is_first_trace holds nothing has succeeded. */
  lemma {:induction false} NoPairYet(log: seq<Path>, i: nat)
    requires Shape(log, true) && i < |log|
    ensures log[i] != FullEnable(true) && !log[i].SinksOnly?
    decreases |log|
  {
    var n := |log| - 1;
    if log[n].Configured? && i < n {
      NoPairYet(log[..n], i);
    } else if log[n].FullEnable? && i < n - 1 {
      NoPairYet(log[..n - 1], i);
    }
  }

  /** Once the pair has succeeded it is never tried again. */
  lemma {:induction false} NeverAgain(log: seq<Path>, first: bool, j: nat, i: nat)
    requires Shape(log, first) && j < i < |log| && log[j] == FullEnable(true)
    ensures log[i].SinksOnly?
    decreases |log|
  {
    var n := |log| - 1;
    match log[n]
    case SinksOnly(_) =>
      if i < n { NeverAgain(log[..n], false, j, i); }
    case Configured(_) =>
      NoPairYet(log[..n], j);
    case FullEnable(_) =>
      if j < n - 1 { NoPairYet(log[..n - 1], j); }
  }

  /** A routine that returns early has executed its whole script. */
  lemma Stops(c: Csal, r: Run, done: seq<Op>, script: seq<Op>)
    requires done <= script && Exec(c, r, done).halted
    ensures Exec(c, r, script) == Exec(c, r, done)
  {
    assert script == done + script[|done|..];
    HaltsThere(c, r, done, script[|done|..]);
  }

  lemma StopsUnder(c: Csal, r: Run, pre: seq<Op>, done: seq<Op>, script: seq<Op>)
    requires done <= script && Exec(c, r, pre + done).halted
    ensures Exec(c, r, pre + script) == Exec(c, r, pre + done)
  {
    assert pre + script == (pre + done) + script[|done|..];
    HaltsThere(c, r, pre + done, script[|done|..]);
  }

  lemma {:induction false} EtfOnPrefix(i: nat, n: nat)
    requires i <= n
    ensures EtfOnOps(i) <= EtfOnOps(n)
  {
    if i < n { EtfOnPrefix(i, n - 1); }
  }

  lemma {:induction false} PreparePrefix(i: nat, n: nat)
    requires i <= n
    ensures PrepareOps(i) <= PrepareOps(n)
  {
    if i < n { PreparePrefix(i, n - 1); }
  }

  lemma {:induction false} RangePrefix(i: nat, n: nat)
    requires i <= n
    ensures RangeOps(i) <= RangeOps(n)
  {
    if i < n { RangePrefix(i, n - 1); }
  }

  // ---------------------------------------------------------------- the first time

  predicate NoSwitches(s: seq<Op>) {
    forall op | op in s :: !op.Switch?
  }

  lemma {:induction false} ConfigureKinds(n: nat)
    ensures NoSwitches(PrepareOps(n)) && NoSwitches(RangeOps(n))
  {
    if n > 0 { ConfigureKinds(n - 1); }
  }

  lemma {:induction false} IdealUnswitched(v: View, s: seq<Op>)
    requires NoSwitches(s)
    ensures Ideal(v, s) == v
    decreases |s|
  {
    if s != [] {
      IdealUnswitched(v, s[..|s| - 1]);
      assert s[|s| - 1] in s;
    }
  }

  function Quieted(b: Board, v: View): View {
    v.(etb := false, tpiu := if b.hasTpiu then false else v.tpiu)
  }

  lemma IdealQuiet(b: Board, v: View)
    ensures Ideal(v, QuietOps(b)) == Quieted(b, v)
  {
    var first := QuietOps(b)[0];
    IdealSnoc(v, [first], Switch(Etb, false, false));
    IdealSnoc(v, [], first);
    assert [] + [first] == [first];
  }

  /** The configuration after the two calls that quieten the sinks. */
  function Programming(b: Board): seq<Op> {
    PrepareOps(b.nCpu) + [Check(true)] + [Check(false)] + RangeOps(b.nCpu) + [Check(false)] + [Gate]
  }

  lemma ConfigureSplit(b: Board)
    ensures ConfigureScript(b) == QuietOps(b) + Programming(b) && NoSwitches(Programming(b))
  {
    ConfigureKinds(b.nCpu);
  }

  /** The sinks are quiet after those, and programming switches nothing. */
  lemma IdealProgramming(b: Board, v: View, rest: seq<Op>)
    requires rest <= Programming(b)
    ensures Ideal(v, QuietOps(b) + rest) == Quieted(b, v)
  {
    ConfigureSplit(b);
    IdealConcat(v, QuietOps(b), rest);
    IdealQuiet(b, v);
    IdealUnswitched(Ideal(v, QuietOps(b)), rest);
  }

  /** A successful configuration leaves the ETR and the TPIU off and touches nothing else. */
  lemma ConfigureView(c: Csal, r: Run, b: Board)
    requires !r.halted && !Exec(c, r, ConfigureScript(b)).halted
    ensures Exec(c, r, ConfigureScript(b)).view == Quieted(b, r.view)
    ensures r.view.errors == 0
  {
    ghost var s := ConfigureScript(b);
    assert s == s[..|s| - 1] + [Gate];
    GatePassed(c, r, s[..|s| - 1]);
    ConfigureSplit(b);
    IdealProgramming(b, r.view, Programming(b));
  }

  /** From the third call on, programming never happens with the ETR or the TPIU on unless an error is counted. */
  lemma ConfigureQuiet(c: Csal, r: Run, b: Board, k: nat)
    requires !r.halted && 2 <= k <= |ConfigureScript(b)|
    ensures
      var v := Exec(c, r, ConfigureScript(b)[..k]).view;
      v.errors > 0 || v == Quieted(b, r.view)
  {
    var rest := Programming(b)[..k - 2];
    ConfigureSplit(b);
    assert ConfigureScript(b)[..k] == QuietOps(b) + rest;
    if Exec(c, r, QuietOps(b) + rest).view.errors == 0 {
      NoErrorIdeal(c, r, QuietOps(b) + rest);
      IdealProgramming(b, r.view, rest);
    }
  }

  lemma ConfigureSources(b: Board)
    ensures NoSourceOps(ConfigureScript(b))
  {
    ConfigureKinds(b.nCpu);
  }

  /** At every step of the first enable_cs_trace from sources off, early error returns included. */
  lemma FirstEnableSafe(c: Csal, b: Board, r: Run, k: nat)
    requires Fits(b, r.view) && !r.halted && !AnySource(r.view) && k <= |EnableOps(b, true)|
    ensures Safe(b, Exec(c, r, EnableOps(b, true)[..k]).view)
  {
    var s, t := ConfigureScript(b), EnableScript(b);
    ConfigureSources(b);
    PrefixOf(s, t, k);
    if k <= |s| {
      SourcesKept(c, r, s[..k]);
    } else {
      var mid := Exec(c, r, s);
      SourcesKept(c, r, s);
      ExecFits(c, r, s, b);
      ExecConcat(c, r, s, t[..k - |s|]);
      if mid.halted {
        ExecHalted(c, mid, t[..k - |s|]);
      } else {
        EnableStepsSafe(c, b, mid, k - |s|);
      }
    }
  }

  // ---------------------------------------------------------------- the error count blocks

  /** enable_cs_trace fails exactly when it leaves errors counted, and always when it finds some. */
  lemma EnableFailsIff(c: Csal, b: Board, r: Run, first: bool)
    requires !r.halted
    ensures Exec(c, r, EnableOps(b, first)).halted <==> Exec(c, r, EnableOps(b, first)).view.errors > 0
    ensures r.view.errors > 0 ==> Exec(c, r, EnableOps(b, first)).halted
  {
    var s := EnableOps(b, first);
    assert s == s[..|s| - 1] + [Gate];
    if Exec(c, r, s).halted {
      ErrorsGrow(c, r, s);
    } else {
      GatePassed(c, r, s[..|s| - 1]);
    }
  }

  /** The devices and is_first_trace; `run.halted` says that the last call returned -1. */
  datatype Called = Called(run: Run, first: bool)

  function EnableCall(c: Csal, b: Board, x: Called): Called {
    var r := Exec(c, x.run.(halted := false), EnableOps(b, x.first));
    Called(r, x.first && r.halted)
  }

  function EnableCalls(c: Csal, b: Board, x: Called, n: nat): Called {
    if n == 0 then x else EnableCall(c, b, EnableCalls(c, b, x, n - 1))
  }

  /**
    enable_cs_trace does not reset the error count: once errors are counted, every further call
    fails, on the same path, whatever the devices do, until disable_cs_trace resets the count.
  */
  lemma {:induction false} ErrorsBlockEnable(c: Csal, b: Board, x: Called, n: nat)
    requires x.run.view.errors > 0 && n > 0
    ensures
      var y := EnableCalls(c, b, x, n);
      y.run.halted && y.run.view.errors > 0 && y.first == x.first
  {
    if n > 1 {
      ErrorsBlockEnable(c, b, x, n - 1);
    }
    var z := EnableCalls(c, b, x, n - 1);
    EnableFailsIff(c, b, z.run.(halted := false), z.first);
  }

  /** So one failed call costs all later ones. */
  lemma FailureBlocksEnable(c: Csal, b: Board, x: Called, n: nat)
    requires EnableCall(c, b, x).run.halted && n > 0
    ensures EnableCalls(c, b, EnableCall(c, b, x), n).run.halted
  {
    EnableFailsIff(c, b, x.run.(halted := false), x.first);
    ErrorsBlockEnable(c, b, EnableCall(c, b, x), n);
  }

  // ---------------------------------------------------------------- rounds

  lemma {:induction false} AttemptStarts(c: Csal, r: Run, s: seq<Op>, k: nat, b: Board)
    requires Fits(b, r.view) && !r.halted
    ensures Fits(b, BeforeAttempt(c, r, s, k).view) && !BeforeAttempt(c, r, s, k).halted
  {
    if k > 0 {
      AttemptStarts(c, r, s, k - 1, b);
      ExecFits(c, BeforeAttempt(c, r, s, k - 1), s, b);
    }
  }

  /** Failed attempts to switch the sinks off never touch a source. */
  lemma {:induction false} AttemptsKeepSources(c: Csal, r: Run, b: Board, k: nat)
    ensures SameSources(r.view, BeforeAttempt(c, r, SinksOffScript(b), k).view)
    ensures !b.hasTpiu ==> r.view.tpiu == BeforeAttempt(c, r, SinksOffScript(b), k).view.tpiu
  {
    if k > 0 {
      AttemptsKeepSources(c, r, b, k - 1);
      ScriptKinds(b);
      SourcesKept(c, BeforeAttempt(c, r, SinksOffScript(b), k - 1), SinksOffScript(b));
      if !b.hasTpiu {
        SinksOffNoTpiu(b);
        TpiuKept(c, BeforeAttempt(c, r, SinksOffScript(b), k - 1), SinksOffScript(b));
      }
    }
  }

  predicate NoTpiuOps(s: seq<Op>) {
    forall op | op in s :: op.Switch? ==> op.t != Tpiu
  }

  lemma {:induction false} TpiuKept(c: Csal, r: Run, s: seq<Op>)
    requires NoTpiuOps(s)
    ensures r.view.tpiu == Exec(c, r, s).view.tpiu
    decreases |s|
  {
    if s != [] {
      TpiuKept(c, r, s[..|s| - 1]);
      assert s[|s| - 1] in s;
    }
  }

  lemma {:induction false} EtfOffNoTpiu(n: nat)
    ensures NoTpiuOps(EtfOffOps(n))
  {
    if n > 0 { EtfOffNoTpiu(n - 1); }
  }

  lemma SinksOffNoTpiu(b: Board)
    requires !b.hasTpiu
    ensures NoTpiuOps(SinksOffScript(b))
  {
    EtfOffNoTpiu(b.nSinks);
  }

  /** disable_cs_trace(false) succeeding at attempt `k`. */
  function SinksOff(c: Csal, r: Run, b: Board, k: nat): Run {
    Exec(c, BeforeAttempt(c, r, SinksOffScript(b), k), SinksOffScript(b))
  }

  /** ... and the sinks-only enable after it. */
  function RoundDone(c: Csal, r: Run, b: Board, k: nat): Run {
    Exec(c, SinksOff(c, r, b, k), SinksOnScript(b))
  }

  lemma SinksOffView(c: Csal, r: Run, b: Board, k: nat)
    requires Fits(b, r.view) && !r.halted && !SinksOff(c, r, b, k).halted
    ensures SinksOff(c, r, b, k).view == SetSinks(b, r.view, false).(errors := 0)
  {
    var x := BeforeAttempt(c, r, SinksOffScript(b), k);
    AttemptStarts(c, r, SinksOffScript(b), k, b);
    AttemptsKeepSources(c, r, b, k);
    ghost var body := SinksOffScript(b)[..|SinksOffScript(b)| - 1];
    assert SinksOffScript(b) == body + [Gate];
    GatePassed(c, x, body);
    IdealSinksOff(b, x.view);
    assert Fill(x.view.etf, b.nSinks, false) == Fill(r.view.etf, b.nSinks, false);
  }

  lemma SinksOnView(c: Csal, r: Run, b: Board)
    requires Fits(b, r.view) && !r.halted && !Exec(c, r, SinksOnScript(b)).halted
    ensures Exec(c, r, SinksOnScript(b)).view == SetSinks(b, r.view, true)
  {
    ghost var body := SinksOnScript(b)[..|SinksOnScript(b)| - 1];
    assert SinksOnScript(b) == body + [Gate];
    GatePassed(c, r, body);
    IdealSinksOn(b, r.view);
  }

  /** One round, however many attempts its disable took, puts the devices back exactly as they were. */
  lemma RoundRestores(c: Csal, r: Run, b: Board, k: nat)
    requires Fits(b, r.view) && !r.halted && r.view.errors == 0 && AllSinks(b, r.view)
    requires !RoundDone(c, r, b, k).halted
    ensures RoundDone(c, r, b, k).view == r.view
  {
    var y := SinksOff(c, r, b, k);
    if y.halted {
      ExecHalted(c, y, SinksOnScript(b));
    }
    SinksOffView(c, r, b, k);
    SinksOnView(c, y, b);
    assert Fill(y.view.etf, b.nSinks, true) == r.view.etf;
  }

  function RoundsDone(c: Csal, r: Run, b: Board, ks: seq<nat>): Run {
    if ks == [] then r else RoundDone(c, RoundsDone(c, r, b, ks[..|ks| - 1]), b, ks[|ks| - 1])
  }

  lemma {:induction false} RoundsRestore(c: Csal, r: Run, b: Board, ks: seq<nat>)
    requires Fits(b, r.view) && !r.halted && r.view.errors == 0 && AllSinks(b, r.view)
    requires forall n | 0 <= n <= |ks| :: !RoundsDone(c, r, b, ks[..n]).halted
    ensures RoundsDone(c, r, b, ks).view == r.view
    decreases |ks|
  {
    if ks != [] {
      var n := |ks| - 1;
      assert forall m | 0 <= m <= n :: ks[..n][..m] == ks[..m];
      RoundsRestore(c, r, b, ks[..n]);
      assert ks[..|ks|] == ks;
      assert !RoundsDone(c, r, b, ks[..n]).halted;
      RoundRestores(c, RoundsDone(c, r, b, ks[..n]), b, ks[n]);
    }
  }

  /** Everything on. */
  predicate AllOn(b: Board, v: View) {
    AllSinks(b, v) && v.itm && forall i | 0 <= i < |v.ptm| :: v.ptm[i]
  }

  predicate AllOff(b: Board, v: View) {
    && !AnySource(v) && !v.etb && (b.hasTpiu ==> !v.tpiu)
    && forall i | 0 <= i < |v.etf| :: !v.etf[i]
  }

  /**
    A session: a successful full enable, any number of successful rounds, a full disable that
    succeeds at attempt `k`. The rounds leave exactly the state of the enable, everything on; the
    disable leaves everything off.
  */
  lemma SessionDevices(c: Csal, r: Run, b: Board, ks: seq<nat>, k: nat)
    requires Fits(b, r.view) && !r.halted
    requires !Exec(c, r, EnableScript(b)).halted
    requires forall n | 0 <= n <= |ks| :: !RoundsDone(c, Exec(c, r, EnableScript(b)), b, ks[..n]).halted
    ensures
      var e := Exec(c, r, EnableScript(b));
      var f := RoundsDone(c, e, b, ks);
      && f.view == e.view && AllSinks(b, e.view)
      && e.view.itm && (forall i | 0 <= i < b.nCpu :: i < |e.view.ptm| && e.view.ptm[i])
      && (!AttemptFails(c, f, DisableScript(b), k) ==>
            AllOff(b, Exec(c, BeforeAttempt(c, f, DisableScript(b), k), DisableScript(b)).view))
  {
    var e := Exec(c, r, EnableScript(b));
    EnableView(c, r, b);
    RoundsRestore(c, e, b, ks);
    var f := RoundsDone(c, e, b, ks);
    assert ks[..|ks|] == ks;
    if !AttemptFails(c, f, DisableScript(b), k) {
      DisableView(c, f, b, k);
    }
  }

  lemma EnableView(c: Csal, r: Run, b: Board)
    requires Fits(b, r.view) && !r.halted && !Exec(c, r, EnableScript(b)).halted
    ensures
      var v := Exec(c, r, EnableScript(b)).view;
      Fits(b, v) && v.errors == 0 && v == SetSources(SetSinks(b, r.view, true), true)
  {
    ghost var body := EnableSinks(b) + EnableSources(b) + [Check(false)];
    GatePassed(c, r, body);
    IdealEnable(b, r.view);
  }

  lemma DisableView(c: Csal, r: Run, b: Board, k: nat)
    requires Fits(b, r.view) && !r.halted && !AttemptFails(c, r, DisableScript(b), k)
    ensures
      var v := Exec(c, BeforeAttempt(c, r, DisableScript(b), k), DisableScript(b)).view;
      AllOff(b, v) && v.errors == 0
  {
    var x := BeforeAttempt(c, r, DisableScript(b), k);
    AttemptStarts(c, r, DisableScript(b), k, b);
    GatePassed(c, x, DisableSources(b) + DisableSinks(b));
    IdealDisable(b, x.view);
  }

  // ---------------------------------------------------------------- what the wrappers do to the devices

  /** disable_cs_trace succeeding at attempt `k`: everything off, or exactly the sinks. */
  lemma DisableEffect(c: Csal, b: Board, r: Run, all: bool, k: nat)
    requires Fits(b, r.view) && !r.halted && !AttemptFails(c, r, DisableOps(b, all), k)
    ensures
      var v := Exec(c, BeforeAttempt(c, r, DisableOps(b, all), k), DisableOps(b, all)).view;
      && v.errors == 0
      && (all ==> AllOff(b, v))
      && (!all ==> SameSources(r.view, v) && v == SetSinks(b, r.view, false).(errors := 0))
  {
    if all {
      DisableView(c, r, b, k);
    } else {
      SinksOffView(c, r, b, k);
    }
  }

  /** Failed attempts to switch off the sinks alone never touch a source. */
  lemma FailedDisableEffect(c: Csal, b: Board, r: Run, all: bool, k: nat)
    ensures !all ==> SameSources(r.view, BeforeAttempt(c, r, DisableOps(b, all), k).view)
  {
    if !all {
      AttemptsKeepSources(c, r, b, k);
    }
  }

  /** enable_cs_trace: everything on the first time, exactly the sinks and few calls afterwards. */
  lemma EnableEffect(c: Csal, b: Board, r: Run, first: bool)
    requires Fits(b, r.view) && !r.halted
    ensures
      var e := Exec(c, r, EnableOps(b, first));
      && (!first ==> SameSources(r.view, e.view))
      && (!first ==> e.ops <= r.ops + 2 + TpiuCalls(b) + 2 * b.nSinks)
      && (!first && !e.halted ==> e.view == SetSinks(b, r.view, true))
      && (first && !e.halted ==> AllOn(b, e.view))
  {
    if first {
      FirstEnableView(c, b, r);
    } else {
      ScriptKinds(b);
      SourcesKept(c, r, SinksOnScript(b));
      SinksOnCallCount(b);
      CallsAtMost(c, r, SinksOnScript(b));
      if !Exec(c, r, SinksOnScript(b)).halted {
        SinksOnView(c, r, b);
      }
    }
  }

  lemma FirstEnableView(c: Csal, b: Board, r: Run)
    requires Fits(b, r.view) && !r.halted
    ensures !Exec(c, r, EnableOps(b, true)).halted ==> AllOn(b, Exec(c, r, EnableOps(b, true)).view)
  {
    var mid := Exec(c, r, ConfigureScript(b));
    ExecConcat(c, r, ConfigureScript(b), EnableScript(b));
    ExecFits(c, r, ConfigureScript(b), b);
    if mid.halted {
      ExecHalted(c, mid, EnableScript(b));
    } else if !Exec(c, mid, EnableScript(b)).halted {
      EnableView(c, mid, b);
    }
  }

  // ---------------------------------------------------------------- the calls themselves

  lemma {:induction false} PrepareCalls(n: nat)
    ensures Calls(PrepareOps(n)) == 3 * n
  {
    if n > 0 {
      PrepareCalls(n - 1);
      var p := PrepareOps(n - 1);
      CallsSnoc(p, Check(true));
      CallsSnoc(p + [Check(true)], Check(true));
      CallsSnoc(p + [Check(true)] + [Check(true)], Check(true));
    }
  }

  lemma {:induction false} RangeCalls(n: nat)
    ensures Calls(RangeOps(n)) == n
  {
    if n > 0 {
      RangeCalls(n - 1);
      CallsSnoc(RangeOps(n - 1), Check(false));
      CallsSnoc(RangeOps(n - 1) + [Check(false)], Gate);
    }
  }

  lemma {:induction false} ConfigurePlain(n: nat)
    ensures NoFlush(PrepareOps(n)) && NoFlush(RangeOps(n))
  {
    if n > 0 { ConfigurePlain(n - 1); }
  }

  lemma QuietCalls(b: Board)
    ensures Calls(QuietOps(b)) == 2
  {
    var first := QuietOps(b)[0];
    assert [first][..0] == [] && Calls([first]) == 1;
    CallsSnoc([first], Switch(Etb, false, false));
  }

  /** configure_trace: two quietening calls, four for each CPU, the STM id, the checkpoint and the flush set-up. */
  lemma ConfigureCallCount(b: Board)
    ensures Calls(ConfigureScript(b)) == 5 + 4 * b.nCpu && NoFlush(ConfigureScript(b))
  {
    QuietCalls(b);
    PrepareCalls(b.nCpu);
    RangeCalls(b.nCpu);
    ConfigurePlain(b.nCpu);
    var s0 := QuietOps(b);
    CallsConcat(s0, PrepareOps(b.nCpu));
    var s1 := s0 + PrepareOps(b.nCpu);
    CallsSnoc(s1, Check(true));
    CallsSnoc(s1 + [Check(true)], Check(false));
    var s2 := s1 + [Check(true)] + [Check(false)];
    CallsConcat(s2, RangeOps(b.nCpu));
    CallsSnoc(s2 + RangeOps(b.nCpu), Check(false));
    CallsSnoc(s2 + RangeOps(b.nCpu) + [Check(false)], Gate);
  }

  /** The configuration up to the address range of CPU `i`. */
  function UpToRange(b: Board, i: nat): seq<Op> {
    QuietOps(b) + PrepareOps(b.nCpu) + [Check(true)] + [Check(false)] + RangeOps(i)
  }

  lemma UpToRangeCalls(b: Board, i: nat)
    ensures Calls(UpToRange(b, i)) == 4 + 3 * b.nCpu + i && NoFlush(UpToRange(b, i))
  {
    QuietCalls(b);
    PrepareCalls(b.nCpu);
    RangeCalls(i);
    ConfigurePlain(b.nCpu);
    ConfigurePlain(i);
    var s0 := QuietOps(b);
    CallsConcat(s0, PrepareOps(b.nCpu));
    var s1 := s0 + PrepareOps(b.nCpu);
    CallsSnoc(s1, Check(true));
    CallsSnoc(s1 + [Check(true)], Check(false));
    CallsConcat(s1 + [Check(true)] + [Check(false)], RangeOps(i));
  }

  /** If the address range of CPU `i` is the first call to fail, configure_trace returns without another call. */
  lemma RangeFailureStops(c: Csal, b: Board, r: Run, i: nat)
    requires !r.halted && r.view.errors == 0 && i < b.nCpu
    requires forall j: nat | r.ops <= j < r.ops + 4 + 3 * b.nCpu + i :: c(j).Works?
    requires c(r.ops + 4 + 3 * b.nCpu + i).Breaks?
    ensures Exec(c, r, ConfigureScript(b)).halted
    ensures Exec(c, r, ConfigureScript(b)).ops == r.ops + 4 + 3 * b.nCpu + i + 1
  {
    UpToRangeCalls(b, i);
    RangeBreaks(c, b, r, i);
  }

  lemma RangeBreaks(c: Csal, b: Board, r: Run, i: nat)
    requires !r.halted && r.view.errors == 0 && i < b.nCpu && NoFlush(UpToRange(b, i))
    requires forall j: nat | r.ops <= j < r.ops + Calls(UpToRange(b, i)) :: c(j).Works?
    requires c(r.ops + Calls(UpToRange(b, i))).Breaks?
    ensures Exec(c, r, ConfigureScript(b)).halted
    ensures Exec(c, r, ConfigureScript(b)).ops == r.ops + Calls(UpToRange(b, i)) + 1
  {
    WorkingRun(c, r, UpToRange(b, i));
    RangeStops(c, b, r, i);
  }

  lemma RangeStops(c: Csal, b: Board, r: Run, i: nat)
    requires i < b.nCpu && !Exec(c, r, UpToRange(b, i)).halted && c(Exec(c, r, UpToRange(b, i)).ops).Breaks?
    ensures Exec(c, r, ConfigureScript(b)).halted
    ensures Exec(c, r, ConfigureScript(b)).ops == Exec(c, r, UpToRange(b, i)).ops + 1
  {
    RangeStep(c, b, r, i);
    BreakThenGate(c, Exec(c, r, UpToRange(b, i)));
    RangeRest(b, i);
    Stops(c, r, UpToRange(b, i + 1), ConfigureScript(b));
  }

  lemma BreakThenGate(c: Csal, x: Run)
    requires !x.halted && c(x.ops).Breaks?
    ensures
      var y := Do(c, Do(c, x, Check(false)), Gate);
      y.halted && y.ops == x.ops + 1
  {
  }

  lemma RangeStep(c: Csal, b: Board, r: Run, i: nat)
    ensures Exec(c, r, UpToRange(b, i + 1)) == Do(c, Do(c, Exec(c, r, UpToRange(b, i)), Check(false)), Gate)
  {
    var s := UpToRange(b, i);
    assert UpToRange(b, i + 1) == s + [Check(false)] + [Gate];
    ExecSnoc(c, r, s, Check(false));
    ExecSnoc(c, r, s + [Check(false)], Gate);
  }

  lemma RangeRest(b: Board, i: nat)
    requires i < b.nCpu
    ensures UpToRange(b, i + 1) <= ConfigureScript(b)
  {
    RangePrefix(i + 1, b.nCpu);
  }

  lemma {:induction false} PlainOps(n: nat, on: bool)
    ensures NoFlush(PtmOps(n, on)) && NoFlush(EtfOnOps(n)) && NoFlush(EtfOffOps(n))
    ensures NoGate(PtmOps(n, on)) && NoGate(EtfOffOps(n))
  {
    if n > 0 { PlainOps(n - 1, on); }
  }

  /** When every call works: how many enable_cs_trace makes, and what it leaves. */
  lemma EnableRun(c: Csal, b: Board, r: Run, first: bool)
    requires Fits(b, r.view) && !r.halted && r.view.errors == 0 && forall i: nat | r.ops <= i :: c(i).Works?
    ensures
      var e := Exec(c, r, EnableOps(b, first));
      && !e.halted
      && e.ops == r.ops + 2 + TpiuCalls(b) + 2 * b.nSinks + (if first then 9 + 5 * b.nCpu else 0)
      && (if first then AllOn(b, e.view) else e.view == SetSinks(b, r.view, true))
  {
    var s := EnableOps(b, first);
    PlainOps(b.nCpu, true);
    PlainOps(b.nSinks, true);
    ConfigureCallCount(b);
    EnableCallCount(b);
    SinksOnCallCount(b);
    CallsConcat(ConfigureScript(b), EnableScript(b));
    assert NoFlush(s);
    WorkingRun(c, r, s);
    EnableEffect(c, b, r, first);
  }

  function SwitchedOff(b: Board, v: View, all: bool): View {
    if all then SetSinks(b, SetSources(v, false), false) else SetSinks(b, v, false)
  }

  function DisableBody(b: Board, all: bool): seq<Op> {
    if all then PtmOps(b.nCpu, false) + [Switch(Itm, false, false)] + DisableSinks(b)
    else TpiuOps(b, false) + EtfOffOps(b.nSinks) + [Switch(Etb, false, false)]
  }

  lemma FullBodyCalls(b: Board)
    ensures Calls(DisableBody(b, true)) == 2 + TpiuCalls(b) + b.nSinks + b.nCpu
  {
    PtmCalls(b.nCpu, false);
    EtfCalls(b.nSinks);
    TpiuOpsCalls(b, false);
    var s, off, itm := PtmOps(b.nCpu, false), Switch(Etb, false, false), Switch(Itm, false, false);
    CallsSnoc(s, itm);
    CallsSnoc(EtfOffOps(b.nSinks), off);
    CallsConcat(EtfOffOps(b.nSinks) + [off], TpiuOps(b, false));
    CallsConcat(s + [itm], DisableSinks(b));
  }

  lemma SinksBodyCalls(b: Board)
    ensures Calls(DisableBody(b, false)) == 1 + TpiuCalls(b) + b.nSinks
  {
    EtfCalls(b.nSinks);
    TpiuOpsCalls(b, false);
    CallsConcat(TpiuOps(b, false), EtfOffOps(b.nSinks));
    CallsSnoc(TpiuOps(b, false) + EtfOffOps(b.nSinks), Switch(Etb, false, false));
  }

  lemma DisableBodyPlain(b: Board, all: bool)
    ensures NoFlush(DisableBody(b, all)) && NoGate(DisableBody(b, all))
  {
    PlainOps(b.nCpu, false);
    PlainOps(b.nSinks, false);
  }

  lemma DisableBodyIdeal(b: Board, v: View, all: bool)
    requires Fits(b, v)
    ensures DisableOps(b, all) == [Flush] + DisableBody(b, all) + [Gate]
    ensures Ideal(v, DisableBody(b, all)) == SwitchedOff(b, v, all)
  {
    var m := DisableBody(b, all);
    assert DisableOps(b, all) == [Flush] + m + [Gate];
    IdealSnoc(v, [Flush] + m, Gate);
    IdealConcat(v, [Flush], m);
    assert Ideal(v, [Flush]) == v;
    if all {
      IdealDisable(b, v);
    } else {
      IdealSinksOff(b, v);
    }
  }

  /**
    With the ETR on, the first call of both disables is the flush: if all later calls work,
    everything is switched off whether it worked or not, but its failure alone makes the attempt
    fail.
  */
  lemma FlushFirst(c: Csal, b: Board, r: Run, all: bool)
    requires Fits(b, r.view) && !r.halted && r.view.etb && forall i: nat | r.ops < i :: c(i).Works?
    ensures
      var e := Exec(c, r, DisableOps(b, all));
      var failed := if c(r.ops).Breaks? then 1 else 0;
      && e.view == SwitchedOff(b, r.view, all).(errors := r.view.errors + failed)
      && e.ops == r.ops + 2 + TpiuCalls(b) + b.nSinks + (if all then b.nCpu + 1 else 0)
      && (e.halted <==> r.view.errors + failed > 0)
  {
    var m := DisableBody(b, all);
    var x := Do(c, r, Flush);
    DisableBodyIdeal(b, x.view, all);
    DisableBodyPlain(b, all);
    if all { FullBodyCalls(b); } else { SinksBodyCalls(b); }
    WorkingRunStale(c, x, m);
    AfterFlush(c, r, m);
  }

  /** With the ETR off there is no flush, and one call less. */
  lemma NoFlushWhenOff(c: Csal, b: Board, r: Run, all: bool)
    requires Fits(b, r.view) && !r.halted && !r.view.etb && forall i: nat | r.ops <= i :: c(i).Works?
    ensures
      var e := Exec(c, r, DisableOps(b, all));
      && e.view == SwitchedOff(b, r.view, all)
      && e.ops == r.ops + 1 + TpiuCalls(b) + b.nSinks + (if all then b.nCpu + 1 else 0)
      && (e.halted <==> r.view.errors > 0)
  {
    var m := DisableBody(b, all);
    DisableBodyIdeal(b, r.view, all);
    DisableBodyPlain(b, all);
    if all { FullBodyCalls(b); } else { SinksBodyCalls(b); }
    WorkingRunStale(c, r, m);
    AfterFlush(c, r, m);
  }

  lemma AfterFlush(c: Csal, r: Run, m: seq<Op>)
    ensures Exec(c, r, [Flush] + m + [Gate]) == Do(c, Exec(c, Do(c, r, Flush), m), Gate)
  {
    assert [Flush][..0] == [];
    assert Exec(c, r, [Flush]) == Do(c, r, Flush);
    ExecConcat(c, r, [Flush], m);
    ExecSnoc(c, r, [Flush] + m, Gate);
  }

  // ---------------------------------------------------------------- a stale error count

  lemma {:induction false} WorkingExec(c: Csal, r: Run, s: seq<Op>)
    requires (forall i: nat | r.ops <= i :: c(i).Works?) && !r.halted && r.view.errors == 0
    ensures !Exec(c, r, s).halted && Exec(c, r, s).view.errors == 0 && Exec(c, r, s).ops >= r.ops
    decreases |s|
  {
    if s != [] {
      WorkingExec(c, r, s[..|s| - 1]);
    }
  }

  lemma {:induction false} OpsGrow(c: Csal, r: Run, s: seq<Op>)
    ensures Exec(c, r, s).ops >= r.ops
    decreases |s|
  {
    if s != [] {
      OpsGrow(c, r, s[..|s| - 1]);
    }
  }

  /** If only a stale error count is in the way, the first attempt fails and the second succeeds. */
  lemma StaleCountCostsOneAttempt(c: Csal, r: Run, b: Board, all: bool)
    requires (forall i: nat | r.ops <= i :: c(i).Works?) && !r.halted && r.view.errors > 0
    ensures AttemptFails(c, r, DisableOps(b, all), 0) && !AttemptFails(c, r, DisableOps(b, all), 1)
  {
    var s := DisableOps(b, all);
    ghost var body := s[..|s| - 1];
    assert s == body + [Gate];
    if !Exec(c, r, s).halted {
      GatePassed(c, r, body);
    }
    OpsGrow(c, r, s);
    assert BeforeAttempt(c, r, s, 0) == r;
    var second := BeforeAttempt(c, r, s, 1);
    assert second == Reset(Exec(c, r, s));
    WorkingExec(c, second, s);
  }

  // ---------------------------------------------------------------- programs

  class Session {
    const board: Board
    const csal: Csal
    var view: View
    var ops: nat
    var isFirst: bool
    ghost var log: seq<Path>

    ghost predicate Valid()
      reads this
    {
      Fits(board, view) && Shape(log, isFirst)
    }

    ghost function Now(halted: bool): Run
      reads this
    {
      Run(view, ops, halted)
    }

    constructor (board: Board, csal: Csal)
      ensures Valid() && this.board == board && this.csal == csal
      ensures isFirst && log == [] && view.errors == 0 && !AnySource(view)
    {
      this.board, this.csal, this.ops, this.isFirst, this.log := board, csal, 0, true, [];
      this.view := View(seq(board.nCpu, _ => false), false, false, seq(board.nSinks, _ => false), false, 0);
    }

    /** One CSAL call. `ok` is what the caller sees. */
    method Perform(op: Op) returns (ok: bool)
      modifies this`view, this`ops
      ensures Now(!ok) == Do(csal, old(Now(false)), op)
    {
      match op {
        case Switch(t, on, must) =>
          match csal(ops) {
            case Works => view := Put(view, t, on); ok := true;
            case Breaks(left) => view := Counted(Put(view, t, left)); ok := !must;
          }
          ops := ops + 1;
        case Check(must) =>
          ok := csal(ops).Works? || !must;
          if csal(ops).Breaks? { view := Counted(view); }
          ops := ops + 1;
        case Flush =>
          ok := true;
          if view.etb {
            if csal(ops).Breaks? { view := Counted(view); }
            ops := ops + 1;
          }
        case Gate =>
          ok := view.errors == 0;
      }
    }

    /** One more operation of a script whose operations `done` have been executed. */
    method Next(op: Op, ghost start: Run, ghost done: seq<Op>) returns (ok: bool)
      requires Now(false) == Exec(csal, start, done)
      modifies this`view, this`ops
      ensures Now(!ok) == Exec(csal, start, done + [op])
    {
      ok := Perform(op);
      ExecSnoc(csal, start, done, op);
    }

    /** The ETM loops: results are ignored, errors counted. */
    method SwitchPtms(on: bool, ghost start: Run, ghost done: seq<Op>)
      requires Now(false) == Exec(csal, start, done)
      modifies this`view, this`ops
      ensures Now(false) == Exec(csal, start, done + PtmOps(board.nCpu, on))
    {
      assert done + PtmOps(0, on) == done;
      for i := 0 to board.nCpu
        invariant Now(false) == Exec(csal, start, done + PtmOps(i, on))
      {
        var _ := Next(Switch(Ptm(i), on, false), start, done + PtmOps(i, on));
        assert done + PtmOps(i + 1, on) == done + PtmOps(i, on) + [Switch(Ptm(i), on, false)];
      }
    }

    method DisableEtfs(ghost start: Run, ghost done: seq<Op>)
      requires Now(false) == Exec(csal, start, done)
      modifies this`view, this`ops
      ensures Now(false) == Exec(csal, start, done + EtfOffOps(board.nSinks))
    {
      assert done + EtfOffOps(0) == done;
      for i := 0 to board.nSinks
        invariant Now(false) == Exec(csal, start, done + EtfOffOps(i))
      {
        var _ := Next(Switch(Etf(i), false, false), start, done + EtfOffOps(i));
        assert done + EtfOffOps(i + 1) == done + EtfOffOps(i) + [Switch(Etf(i), false, false)];
      }
    }

    /** Set up and enable one ETF, giving up at a failure. */
    method EnableEtf(i: nat, ghost start: Run, ghost done: seq<Op>) returns (ok: bool)
      requires Now(false) == Exec(csal, start, done + EtfOnOps(i))
      modifies this`view, this`ops
      ensures Now(!ok) == Exec(csal, start, done + EtfOnOps(i + 1))
    {
      ghost var at := done + EtfOnOps(i);
      assert done + EtfOnOps(i + 1) == at + [Check(true)] + [Switch(Etf(i), true, true)];
      ok := Next(Check(true), start, at);
      if !ok {
        Stops(csal, start, at + [Check(true)], done + EtfOnOps(i + 1));
        return;
      }
      ok := Next(Switch(Etf(i), true, true), start, at + [Check(true)]);
    }

    /** The ETF loops of the two enable routines. */
    method EnableEtfs(ghost start: Run, ghost done: seq<Op>) returns (ok: bool)
      requires Now(false) == Exec(csal, start, done)
      modifies this`view, this`ops
      ensures Now(!ok) == Exec(csal, start, done + EtfOnOps(board.nSinks))
    {
      assert done + EtfOnOps(0) == done;
      for i := 0 to board.nSinks
        invariant Now(false) == Exec(csal, start, done + EtfOnOps(i))
      {
        ok := EnableEtf(i, start, done);
        if !ok {
          EtfOnPrefix(i + 1, board.nSinks);
          StopsUnder(csal, start, done, EtfOnOps(i + 1), EtfOnOps(board.nSinks));
          return;
        }
      }
      ok := true;
    }

    method SwitchTpiu(on: bool, ghost start: Run, ghost done: seq<Op>) returns (ok: bool)
      requires Now(false) == Exec(csal, start, done)
      modifies this`view, this`ops
      ensures Now(!ok) == Exec(csal, start, done + TpiuOps(board, on))
    {
      ok := true;
      if board.hasTpiu {
        ok := Next(Switch(Tpiu, on, true), start, done);
      } else {
        assert done + TpiuOps(board, on) == done;
      }
    }

    method EnableTrace() returns (ret: int)
      modifies this`view, this`ops
      ensures ret == 0 || ret == -1
      ensures Now(ret < 0) == Exec(csal, old(Now(false)), EnableScript(board))
    {
      ghost var start := Now(false);
      ghost var script := EnableScript(board);
      ghost var done := EnableSinks(board) + EnableSources(board);
      assert script == EnableSinks(board) + (EnableSources(board) + [Check(false)] + [Gate]);
      var ok := EnableAllSinks(start);
      if !ok {
        Stops(csal, start, EnableSinks(board), script);
        return -1;
      }
      ok := EnableAllSources(start, EnableSinks(board));
      if !ok {
        Stops(csal, start, done, script);
        return -1;
      }
      ok := Next(Check(false), start, done);
      ok := Next(Gate, start, done + [Check(false)]);
      return if ok then 0 else -1;
    }

    /** The ETMs and the STM of enable_trace. */
    method EnableAllSources(ghost start: Run, ghost done: seq<Op>) returns (ok: bool)
      requires Now(false) == Exec(csal, start, done)
      modifies this`view, this`ops
      ensures Now(!ok) == Exec(csal, start, done + EnableSources(board))
    {
      ghost var script := done + EnableSources(board);
      ghost var at := done + PtmOps(board.nCpu, true);
      assert script == at + [Check(true)] + [Check(true)] + [Switch(Itm, true, false)];
      SwitchPtms(true, start, done);
      ok := Next(Check(true), start, at);
      if !ok {
        Stops(csal, start, at + [Check(true)], script);
        return;
      }
      ok := Next(Check(true), start, at + [Check(true)]);
      if !ok {
        Stops(csal, start, at + [Check(true)] + [Check(true)], script);
        return;
      }
      ok := Next(Switch(Itm, true, false), start, at + [Check(true)] + [Check(true)]);
    }

    /** The ETR, the TPIU and the ETFs of enable_trace. */
    method EnableAllSinks(ghost start: Run) returns (ok: bool)
      requires start == Now(false)
      modifies this`view, this`ops
      ensures Now(!ok) == Exec(csal, start, EnableSinks(board))
    {
      ghost var script := EnableSinks(board);
      ghost var etr := [Check(true)] + [Switch(Etb, true, true)];
      assert [] + [Check(true)] == [Check(true)];
      ok := Next(Check(true), start, []);
      if !ok {
        Stops(csal, start, [Check(true)], script);
        return;
      }
      ok := Next(Switch(Etb, true, true), start, [Check(true)]);
      if !ok {
        Stops(csal, start, etr, script);
        return;
      }
      ok := SwitchTpiu(true, start, etr);
      if !ok {
        Stops(csal, start, etr + TpiuOps(board, true), script);
        return;
      }
      ok := EnableEtfs(start, etr + TpiuOps(board, true));
    }

    method DisableTrace() returns (ret: int)
      modifies this`view, this`ops
      ensures ret == 0 || ret == -1
      ensures Now(ret < 0) == Exec(csal, old(Now(false)), DisableScript(board))
    {
      ghost var start := Now(false);
      ghost var done := DisableSources(board) + DisableSinks(board);
      DisableAllSources(start);
      var ok := DisableAllSinks(start, DisableSources(board));
      if !ok {
        Stops(csal, start, done, DisableScript(board));
        return -1;
      }
      ok := Next(Gate, start, done);
      return if ok then 0 else -1;
    }

    /** The flush, the ETMs and the STM of disable_trace. */
    method DisableAllSources(ghost start: Run)
      requires start == Now(false)
      modifies this`view, this`ops
      ensures Now(false) == Exec(csal, start, DisableSources(board))
    {
      assert [] + [Flush] == [Flush];
      var _ := Next(Flush, start, []);
      SwitchPtms(false, start, [Flush]);
      var _ := Next(Switch(Itm, false, false), start, [Flush] + PtmOps(board.nCpu, false));
    }

    /** The ETFs, the ETR and the TPIU of disable_trace. */
    method DisableAllSinks(ghost start: Run, ghost done: seq<Op>) returns (ok: bool)
      requires Now(false) == Exec(csal, start, done)
      modifies this`view, this`ops
      ensures Now(!ok) == Exec(csal, start, done + DisableSinks(board))
    {
      ghost var at := done + EtfOffOps(board.nSinks);
      DisableEtfs(start, done);
      ok := Next(Switch(Etb, false, false), start, at);
      ok := SwitchTpiu(false, start, at + [Switch(Etb, false, false)]);
      assert done + DisableSinks(board) == at + [Switch(Etb, false, false)] + TpiuOps(board, false);
    }

    method EnableTraceSinksOnly() returns (ret: int)
      modifies this`view, this`ops
      ensures ret == 0 || ret == -1
      ensures Now(ret < 0) == Exec(csal, old(Now(false)), SinksOnScript(board))
    {
      ghost var start := Now(false);
      ghost var script := SinksOnScript(board);
      ghost var done := [Switch(Etb, true, true)];
      assert [] + done == done;
      var ok := Next(Switch(Etb, true, true), start, []);
      if !ok {
        Stops(csal, start, done, script);
        return -1;
      }
      ok := SwitchTpiu(true, start, done);
      done := done + TpiuOps(board, true);
      if !ok {
        Stops(csal, start, done, script);
        return -1;
      }
      ok := EnableEtfs(start, done);
      done := done + EtfOnOps(board.nSinks);
      if !ok {
        Stops(csal, start, done, script);
        return -1;
      }
      ok := Next(Check(false), start, done);
      ok := Next(Gate, start, done + [Check(false)]);
      return if ok then 0 else -1;
    }

    method DisableTraceSinksOnly() returns (ret: int)
      modifies this`view, this`ops
      ensures ret == 0 || ret == -1
      ensures Now(ret < 0) == Exec(csal, old(Now(false)), SinksOffScript(board))
    {
      ghost var start := Now(false);
      ghost var done := [Flush];
      assert [] + [Flush] == [Flush];
      var ok := Next(Flush, start, []);
      ok := SwitchTpiu(false, start, done);
      done := done + TpiuOps(board, false);
      if !ok {
        Stops(csal, start, done, SinksOffScript(board));
        return -1;
      }
      DisableEtfs(start, done);
      done := done + EtfOffOps(board.nSinks);
      ok := Next(Switch(Etb, false, false), start, done);
      ok := Next(Gate, start, done + [Switch(Etb, false, false)]);
      return if ok then 0 else -1;
    }

    method Quieten(ghost start: Run)
      requires start == Now(false)
      modifies this`view, this`ops
      ensures Now(false) == Exec(csal, start, QuietOps(board))
    {
      ghost var first := if board.hasTpiu then Switch(Tpiu, false, false) else Check(false);
      assert [] + [first] == [first];
      if board.hasTpiu {
        var _ := Next(Switch(Tpiu, false, false), start, []);
      } else {
        var _ := Next(Check(false), start, []);
      }
      var _ := Next(Switch(Etb, false, false), start, [first]);
    }

    /** Device handle, trace id and ETM reset of one CPU. */
    method PrepareCpu(i: nat, ghost start: Run, ghost done: seq<Op>) returns (ok: bool)
      requires Now(false) == Exec(csal, start, done + PrepareOps(i))
      modifies this`view, this`ops
      ensures Now(!ok) == Exec(csal, start, done + PrepareOps(i + 1))
    {
      ghost var at := done + PrepareOps(i);
      ghost var script := done + PrepareOps(i + 1);
      assert script == at + [Check(true)] + [Check(true)] + [Check(true)];
      ok := Next(Check(true), start, at);
      if !ok {
        Stops(csal, start, at + [Check(true)], script);
        return;
      }
      ok := Next(Check(true), start, at + [Check(true)]);
      if !ok {
        Stops(csal, start, at + [Check(true)] + [Check(true)], script);
        return;
      }
      ok := Next(Check(true), start, at + [Check(true)] + [Check(true)]);
    }

    method PrepareCpus(ghost start: Run, ghost done: seq<Op>) returns (ok: bool)
      requires Now(false) == Exec(csal, start, done)
      modifies this`view, this`ops
      ensures Now(!ok) == Exec(csal, start, done + PrepareOps(board.nCpu))
    {
      assert done + PrepareOps(0) == done;
      for i := 0 to board.nCpu
        invariant Now(false) == Exec(csal, start, done + PrepareOps(i))
      {
        ok := PrepareCpu(i, start, done);
        if !ok {
          PreparePrefix(i + 1, board.nCpu);
          StopsUnder(csal, start, done, PrepareOps(i + 1), PrepareOps(board.nCpu));
          return;
        }
      }
      ok := true;
    }

    /** The address range of one ETM, with the test of the sticky error count after it. */
    method SetRange(i: nat, ghost start: Run, ghost done: seq<Op>) returns (ok: bool)
      requires Now(false) == Exec(csal, start, done + RangeOps(i))
      modifies this`view, this`ops
      ensures Now(!ok) == Exec(csal, start, done + RangeOps(i + 1))
    {
      ok := Next(Check(false), start, done + RangeOps(i));
      ok := Next(Gate, start, done + RangeOps(i) + [Check(false)]);
      assert done + RangeOps(i + 1) == done + RangeOps(i) + [Check(false)] + [Gate];
    }

    method SetRanges(ghost start: Run, ghost done: seq<Op>) returns (ok: bool)
      requires Now(false) == Exec(csal, start, done)
      modifies this`view, this`ops
      ensures Now(!ok) == Exec(csal, start, done + RangeOps(board.nCpu))
    {
      assert done + RangeOps(0) == done;
      for i := 0 to board.nCpu
        invariant Now(false) == Exec(csal, start, done + RangeOps(i))
      {
        ok := SetRange(i, start, done);
        if !ok {
          RangePrefix(i + 1, board.nCpu);
          StopsUnder(csal, start, done, RangeOps(i + 1), RangeOps(board.nCpu));
          return;
        }
      }
      ok := true;
    }

    method ConfigureTrace() returns (ret: int)
      modifies this`view, this`ops
      ensures ret == 0 || ret == -1
      ensures Now(ret < 0) == Exec(csal, old(Now(false)), ConfigureScript(board))
    {
      ghost var start := Now(false);
      ghost var script := ConfigureScript(board);
      Quieten(start);
      ghost var done := QuietOps(board);
      var ok := PrepareCpus(start, done);
      done := done + PrepareOps(board.nCpu);
      if !ok {
        Stops(csal, start, done, script);
        return -1;
      }
      ok := Next(Check(true), start, done);
      done := done + [Check(true)];
      if !ok {
        Stops(csal, start, done, script);
        return -1;
      }
      ok := Next(Check(false), start, done);
      done := done + [Check(false)];
      ok := SetRanges(start, done);
      done := done + RangeOps(board.nCpu);
      if !ok {
        Stops(csal, start, done, script);
        return -1;
      }
      ok := Next(Check(false), start, done);
      ok := Next(Gate, start, done + [Check(false)]);
      return if ok then 0 else -1;
    }

    /**
      enable_cs_trace. The log grows by what was tried; is_first_trace drops exactly when a
      configure-and-full-enable pair succeeds; the call fails exactly when errors are counted.
    */
    method EnableCsTrace() returns (ret: int)
      requires Valid()
      modifies this
      ensures Valid() && (ret == 0 || ret == -1)
      ensures Called(Now(ret < 0), isFirst) == EnableCall(csal, board, old(Called(Now(false), isFirst)))
      ensures ret < 0 <==> view.errors > 0
      ensures old(view.errors) > 0 ==> ret < 0
      ensures old(!isFirst) ==> SameSources(old(view), view)
      ensures old(!isFirst) && ret == 0 ==> view == SetSinks(board, old(view), true)
      ensures old(!isFirst) ==> ops <= old(ops) + 2 + TpiuCalls(board) + 2 * board.nSinks
      ensures old(isFirst) && ret == 0 ==> AllOn(board, view)
      ensures old(!isFirst) ==> log == old(log) + [SinksOnly(ret == 0)] && !isFirst
      ensures old(isFirst) ==>
        || (log == old(log) + [Configured(false)] && ret < 0 && isFirst)
        || (log == old(log) + [Configured(true)] + [FullEnable(ret == 0)] && isFirst == (ret < 0))
    {
      ghost var start := Now(false);
      EnableFailsIff(csal, board, start, isFirst);
      EnableEffect(csal, board, start, isFirst);
      ExecFits(csal, start, EnableOps(board, isFirst), board);
      if isFirst {
        ret := EnableFirst();
      } else {
        ret := EnableTraceSinksOnly();
        log := log + [SinksOnly(ret == 0)];
      }
    }

    /** The first-time path: configure, then enable everything. */
    method EnableFirst() returns (ret: int)
      requires Valid() && isFirst
      modifies this
      ensures Shape(log, isFirst) && (ret == 0 || ret == -1) && isFirst == (ret < 0)
      ensures Now(ret < 0) == Exec(csal, old(Now(false)), EnableOps(board, true))
      ensures
        || (log == old(log) + [Configured(false)] && ret < 0)
        || log == old(log) + [Configured(true)] + [FullEnable(ret == 0)]
    {
      ghost var start := Now(false);
      ret := ConfigureTrace();
      if ret < 0 {
        HaltsThere(csal, start, ConfigureScript(board), EnableScript(board));
        log := log + [Configured(false)];
        return;
      }
      ExecConcat(csal, start, ConfigureScript(board), EnableScript(board));
      ret := EnableTrace();
      ghost var before := log;
      log := log + [Configured(true)] + [FullEnable(ret == 0)];
      assert log[..|log| - 2] == before && log[|log| - 2] == Configured(true);
      isFirst := ret < 0;
    }

    /** One attempt, with the routine that the flag selects. */
    method DisableOnce(all: bool) returns (ret: int)
      modifies this`view, this`ops
      ensures ret == 0 || ret == -1
      ensures Now(ret < 0) == Exec(csal, old(Now(false)), DisableOps(board, all))
    {
      if all {
        ret := DisableTrace();
      } else {
        ret := DisableTraceSinksOnly();
      }
    }

    /**
      disable_cs_trace: min(first successful attempt, 8) attempts, a negative result exactly when
      all eight fail, and the error count at zero in every case.
    */
    method DisableCsTrace(all: bool) returns (ret: int, tries: nat)
      requires Valid()
      modifies this`view, this`ops
      ensures Valid() && view.errors == 0
      ensures 1 <= tries <= TRACE_DISABLE_TRIAL && (ret == 0 || ret == -1)
      ensures forall k | 0 <= k < tries - 1 :: AttemptFails(csal, old(Now(false)), DisableOps(board, all), k)
      ensures ret == 0 <==> !AttemptFails(csal, old(Now(false)), DisableOps(board, all), tries - 1)
      ensures ret < 0 ==> tries == TRACE_DISABLE_TRIAL
      ensures ret == 0 && all ==> AllOff(board, view)
      ensures !all ==> SameSources(old(view), view)
      ensures ret == 0 && !all ==> view == SetSinks(board, old(view), false).(errors := 0)
      ensures ret == 0 ==>
        Now(false) == Exec(csal, BeforeAttempt(csal, old(Now(false)), DisableOps(board, all), tries - 1), DisableOps(board, all))
    {
      ghost var start, script := Now(false), DisableOps(board, all);
      ret, tries := -1, 0;
      while tries < TRACE_DISABLE_TRIAL
        invariant tries <= TRACE_DISABLE_TRIAL && ret == -1
        invariant Fits(board, view) && (tries > 0 ==> view.errors == 0)
        invariant !all ==> SameSources(start.view, view)
        invariant Now(false) == BeforeAttempt(csal, start, script, tries)
        invariant forall k | 0 <= k < tries :: AttemptFails(csal, start, script, k)
      {
        ghost var now := Now(false);
        ret := DisableOnce(all);
        ExecFits(csal, now, script, board);
        tries := tries + 1;
        if !(ret < 0) {
          DisableEffect(csal, board, start, all, tries - 1);
          break;
        }
        FailedDisableEffect(csal, board, start, all, tries);
        view := view.(errors := 0);
      }
    }
  }
}
