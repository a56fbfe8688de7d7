/**
  The CoreSight components as on/off switches behind CSAL, whose calls may fail and then raise a
  sticky error count. Each routine of config.c is a loop program over those calls; what it does is
  the execution of a script, and what the scripts do is proved here.
*/
module Devices {

  datatype Board = Board(nCpu: nat, nSinks: nat, hasTpiu: bool)

  datatype Target = Ptm(i: nat) | Itm | Etb | Etf(i: nat) | Tpiu

  /** Sources are the ETMs and the STM; sinks the ETR, the ETFs and, if present, the TPIU. */
  datatype View = View(ptm: seq<bool>, itm: bool, etb: bool, etf: seq<bool>, tpiu: bool, errors: nat)

  datatype Op =
    | Switch(t: Target, on: bool, must: bool)  // with `must` a failure makes the routine return -1
    | Check(must: bool)                        // a call that switches nothing
    | Flush                                    // only touches an enabled ETB
    | Gate                                     // return -1 if errors have been counted

  /** The outcome of a CSAL call; a failed switch may leave the component either way. */
  datatype Outcome = Works | Breaks(left: bool)

  /** The outcomes of all CSAL calls of a session, in order. */
  type Csal = nat -> Outcome

  datatype Run = Run(view: View, ops: nat, halted: bool)

  predicate Fits(b: Board, v: View) {
    |v.ptm| == b.nCpu && |v.etf| == b.nSinks
  }

  function Put(v: View, t: Target, on: bool): View {
    match t
    case Ptm(i) => if i < |v.ptm| then v.(ptm := v.ptm[i := on]) else v
    case Itm => v.(itm := on)
    case Etb => v.(etb := on)
    case Etf(i) => if i < |v.etf| then v.(etf := v.etf[i := on]) else v
    case Tpiu => v.(tpiu := on)
  }

  function Do(c: Csal, r: Run, op: Op): Run {
    if r.halted then r else
    match op
    case Switch(t, on, must) =>
      (match c(r.ops)
       case Works => Run(Put(r.view, t, on), r.ops + 1, false)
       case Breaks(left) => Run(Counted(Put(r.view, t, left)), r.ops + 1, must))
    case Check(must) =>
      (match c(r.ops)
       case Works => Run(r.view, r.ops + 1, false)
       case Breaks(_) => Run(Counted(r.view), r.ops + 1, must))
    case Flush =>
      if !r.view.etb then r
      else (match c(r.ops)
            case Works => Run(r.view, r.ops + 1, false)
            case Breaks(_) => Run(Counted(r.view), r.ops + 1, false))
    case Gate => Run(r.view, r.ops, r.view.errors > 0)
  }

  function Counted(v: View): View {
    v.(errors := v.errors + 1)
  }

  function Exec(c: Csal, r: Run, script: seq<Op>): Run {
    if script == [] then r
    else Do(c, Exec(c, r, script[..|script| - 1]), script[|script| - 1])
  }

  // ---------------------------------------------------------------- the scripts

  function PtmOps(n: nat, on: bool): seq<Op> {
    if n == 0 then [] else PtmOps(n - 1, on) + [Switch(Ptm(n - 1), on, false)]
  }

  function EtfOnOps(n: nat): seq<Op> {
    if n == 0 then [] else EtfOnOps(n - 1) + [Check(true)] + [Switch(Etf(n - 1), true, true)]
  }

  function EtfOffOps(n: nat): seq<Op> {
    if n == 0 then [] else EtfOffOps(n - 1) + [Switch(Etf(n - 1), false, false)]
  }

  function TpiuOps(b: Board, on: bool): seq<Op> {
    if b.hasTpiu then [Switch(Tpiu, on, true)] else []
  }

  /** The sinks of enable_trace, then its sources, then the error check. */
  function EnableSinks(b: Board): seq<Op> {
    [Check(true)] + [Switch(Etb, true, true)] + TpiuOps(b, true) + EtfOnOps(b.nSinks)
  }

  function EnableSources(b: Board): seq<Op> {
    PtmOps(b.nCpu, true) + [Check(true)] + [Check(true)] + [Switch(Itm, true, false)]
  }

  function EnableScript(b: Board): seq<Op> {
    EnableSinks(b) + EnableSources(b) + [Check(false)] + [Gate]
  }

  function DisableSources(b: Board): seq<Op> {
    [Flush] + PtmOps(b.nCpu, false) + [Switch(Itm, false, false)]
  }

  function DisableSinks(b: Board): seq<Op> {
    EtfOffOps(b.nSinks) + [Switch(Etb, false, false)] + TpiuOps(b, false)
  }

  function DisableScript(b: Board): seq<Op> {
    DisableSources(b) + DisableSinks(b) + [Gate]
  }

  function SinksOnScript(b: Board): seq<Op> {
    [Switch(Etb, true, true)] + TpiuOps(b, true) + EtfOnOps(b.nSinks) + [Check(false)] + [Gate]
  }

  function SinksOffScript(b: Board): seq<Op> {
    [Flush] + TpiuOps(b, false) + EtfOffOps(b.nSinks) + [Switch(Etb, false, false)] + [Gate]
  }

  // ---------------------------------------------------------------- execution

  lemma ExecSnoc(c: Csal, r: Run, s: seq<Op>, op: Op)
    ensures Exec(c, r, s + [op]) == Do(c, Exec(c, r, s), op)
  {
    assert (s + [op])[..|s|] == s;
  }

  lemma {:induction false} ExecConcat(c: Csal, r: Run, s: seq<Op>, t: seq<Op>)
    ensures Exec(c, r, s + t) == Exec(c, Exec(c, r, s), t)
    decreases |t|
  {
    if t == [] {
      assert s + t == s;
    } else {
      var n := |t| - 1;
      assert s + t == (s + t[..n]) + [t[n]];
      ExecSnoc(c, r, s + t[..n], t[n]);
      ExecConcat(c, r, s, t[..n]);
    }
  }

  /** Nothing happens after an early return. */
  lemma {:induction false} ExecHalted(c: Csal, r: Run, s: seq<Op>)
    requires r.halted
    ensures Exec(c, r, s) == r
    decreases |s|
  {
    if s != [] {
      ExecHalted(c, r, s[..|s| - 1]);
    }
  }

  lemma HaltsThere(c: Csal, r: Run, s: seq<Op>, t: seq<Op>)
    requires Exec(c, r, s).halted
    ensures Exec(c, r, s + t) == Exec(c, r, s)
  {
    ExecConcat(c, r, s, t);
    ExecHalted(c, Exec(c, r, s), t);
  }

  lemma DoFits(c: Csal, r: Run, op: Op, b: Board)
    requires Fits(b, r.view)
    ensures Fits(b, Do(c, r, op).view)
  {
  }

  lemma {:induction false} ExecFits(c: Csal, r: Run, s: seq<Op>, b: Board)
    requires Fits(b, r.view)
    ensures Fits(b, Exec(c, r, s).view)
    decreases |s|
  {
    if s != [] {
      ExecFits(c, r, s[..|s| - 1], b);
      DoFits(c, Exec(c, r, s[..|s| - 1]), s[|s| - 1], b);
    }
  }

  lemma DoErrors(c: Csal, r: Run, op: Op)
    ensures r.view.errors <= Do(c, r, op).view.errors
    ensures Do(c, r, op).halted ==> r.halted || Do(c, r, op).view.errors > 0
  {
  }

  /** The error count never goes down, and an early return implies a counted error. */
  lemma {:induction false} ErrorsGrow(c: Csal, r: Run, s: seq<Op>)
    requires !r.halted
    ensures r.view.errors <= Exec(c, r, s).view.errors
    ensures Exec(c, r, s).halted ==> Exec(c, r, s).view.errors > 0
    decreases |s|
  {
    if s != [] {
      ErrorsGrow(c, r, s[..|s| - 1]);
      DoErrors(c, Exec(c, r, s[..|s| - 1]), s[|s| - 1]);
    }
  }

  // ---------------------------------------------------------------- what the scripts do

  /** The view a script leaves when every call works. */
  function Ideal(v: View, s: seq<Op>): View {
    if s == [] then v
    else
      var u := Ideal(v, s[..|s| - 1]);
      var op := s[|s| - 1];
      if op.Switch? then Put(u, op.t, op.on) else u
  }

  lemma DoIdeal(c: Csal, r: Run, op: Op)
    requires !r.halted && Do(c, r, op).view.errors == 0
    ensures !Do(c, r, op).halted && r.view.errors == 0
    ensures Do(c, r, op).view == (if op.Switch? then Put(r.view, op.t, op.on) else r.view)
  {
  }

  /** A run that ends with the error count at zero did everything it set out to do. */
  lemma {:induction false} NoErrorIdeal(c: Csal, r: Run, s: seq<Op>)
    requires !r.halted && Exec(c, r, s).view.errors == 0
    ensures !Exec(c, r, s).halted && r.view.errors == 0
    ensures Exec(c, r, s).view == Ideal(r.view, s)
    decreases |s|
  {
    if s != [] {
      var n := |s| - 1;
      var mid := Exec(c, r, s[..n]);
      ErrorsGrow(c, r, s[..n]);
      DoErrors(c, mid, s[n]);
      NoErrorIdeal(c, r, s[..n]);
      DoIdeal(c, mid, s[n]);
    }
  }

  function Fill(s: seq<bool>, n: nat, x: bool): seq<bool>
    requires n <= |s|
  {
    seq(n, _ => x) + s[n..]
  }

  function SetSources(v: View, on: bool): View {
    v.(ptm := Fill(v.ptm, |v.ptm|, on), itm := on)
  }

  function SetSinks(b: Board, v: View, on: bool): View {
    v.(etb := on, etf := Fill(v.etf, |v.etf|, on), tpiu := if b.hasTpiu then on else v.tpiu)
  }

  lemma {:induction false} IdealConcat(v: View, s: seq<Op>, t: seq<Op>)
    ensures Ideal(v, s + t) == Ideal(Ideal(v, s), t)
    decreases |t|
  {
    if t == [] {
      assert s + t == s;
    } else {
      var n := |t| - 1;
      assert s + t == (s + t[..n]) + [t[n]];
      assert (s + t)[..|s + t| - 1] == s + t[..n];
      IdealConcat(v, s, t[..n]);
    }
  }

  lemma IdealSnoc(v: View, s: seq<Op>, op: Op)
    ensures Ideal(v, s + [op]) == (if op.Switch? then Put(Ideal(v, s), op.t, op.on) else Ideal(v, s))
  {
    assert (s + [op])[..|s|] == s;
  }

  lemma {:induction false} IdealPtm(v: View, n: nat, on: bool)
    requires n <= |v.ptm|
    ensures Ideal(v, PtmOps(n, on)) == v.(ptm := Fill(v.ptm, n, on))
  {
    if n == 0 {
      assert Fill(v.ptm, 0, on) == v.ptm;
    } else {
      IdealPtm(v, n - 1, on);
      IdealSnoc(v, PtmOps(n - 1, on), Switch(Ptm(n - 1), on, false));
      assert Fill(v.ptm, n - 1, on)[n - 1 := on] == Fill(v.ptm, n, on);
    }
  }

  lemma {:induction false} IdealEtfOff(v: View, n: nat)
    requires n <= |v.etf|
    ensures Ideal(v, EtfOffOps(n)) == v.(etf := Fill(v.etf, n, false))
  {
    if n == 0 {
      assert Fill(v.etf, 0, false) == v.etf;
    } else {
      IdealEtfOff(v, n - 1);
      var u := v.(etf := Fill(v.etf, n - 1, false));
      assert Ideal(v, EtfOffOps(n)) == Put(u, Etf(n - 1), false) by {
        IdealSnoc(v, EtfOffOps(n - 1), Switch(Etf(n - 1), false, false));
      }
      assert Fill(v.etf, n - 1, false)[n - 1 := false] == Fill(v.etf, n, false);
    }
  }

  lemma {:induction false} IdealEtfOn(v: View, n: nat)
    requires n <= |v.etf|
    ensures Ideal(v, EtfOnOps(n)) == v.(etf := Fill(v.etf, n, true))
  {
    if n == 0 {
      assert Fill(v.etf, 0, true) == v.etf;
    } else {
      IdealEtfOn(v, n - 1);
      var u := v.(etf := Fill(v.etf, n - 1, true));
      assert Ideal(v, EtfOnOps(n)) == Put(u, Etf(n - 1), true) by {
        IdealSnoc(v, EtfOnOps(n - 1), Check(true));
        IdealSnoc(v, EtfOnOps(n - 1) + [Check(true)], Switch(Etf(n - 1), true, true));
      }
      assert Fill(v.etf, n - 1, true)[n - 1 := true] == Fill(v.etf, n, true);
    }
  }

  lemma IdealTpiu(b: Board, v: View, on: bool)
    ensures Ideal(v, TpiuOps(b, on)) == v.(tpiu := if b.hasTpiu then on else v.tpiu)
  {
    if b.hasTpiu {
      IdealSnoc(v, [], Switch(Tpiu, on, true));
      assert [] + [Switch(Tpiu, on, true)] == TpiuOps(b, on);
    }
  }

  lemma IdealEnableSinks(b: Board, v: View)
    requires Fits(b, v)
    ensures Ideal(v, EnableSinks(b)) == SetSinks(b, v, true)
  {
    var s0 := [Check(true)] + [Switch(Etb, true, true)];
    assert Ideal(v, s0) == v.(etb := true) by {
      IdealSnoc(v, [Check(true)], Switch(Etb, true, true));
      IdealSnoc(v, [], Check(true));
      assert [] + [Check(true)] == [Check(true)];
    }
    IdealConcat(v, s0, TpiuOps(b, true));
    IdealTpiu(b, v.(etb := true), true);
    IdealConcat(v, s0 + TpiuOps(b, true), EtfOnOps(b.nSinks));
    IdealEtfOn(Ideal(v, s0 + TpiuOps(b, true)), b.nSinks);
  }

  lemma IdealDisableSinks(b: Board, v: View)
    requires Fits(b, v)
    ensures Ideal(v, DisableSinks(b)) == SetSinks(b, v, false)
  {
    IdealEtfOff(v, b.nSinks);
    IdealSnoc(v, EtfOffOps(b.nSinks), Switch(Etb, false, false));
    var s := EtfOffOps(b.nSinks) + [Switch(Etb, false, false)];
    IdealConcat(v, s, TpiuOps(b, false));
    IdealTpiu(b, Ideal(v, s), false);
  }

  lemma IdealDisableSources(b: Board, v: View)
    requires Fits(b, v)
    ensures Ideal(v, DisableSources(b)) == SetSources(v, false)
  {
    IdealConcat(v, [Flush], PtmOps(b.nCpu, false));
    assert Ideal(v, [Flush]) == v;
    IdealPtm(v, b.nCpu, false);
    IdealSnoc(v, [Flush] + PtmOps(b.nCpu, false), Switch(Itm, false, false));
  }

  lemma IdealEnableSources(b: Board, v: View)
    requires Fits(b, v)
    ensures Ideal(v, EnableSources(b)) == SetSources(v, true)
  {
    var s := PtmOps(b.nCpu, true);
    IdealPtm(v, b.nCpu, true);
    IdealSnoc(v, s, Check(true));
    IdealSnoc(v, s + [Check(true)], Check(true));
    IdealSnoc(v, s + [Check(true)] + [Check(true)], Switch(Itm, true, false));
  }

  lemma IdealEnable(b: Board, v: View)
    requires Fits(b, v)
    ensures Ideal(v, EnableScript(b)) == SetSources(SetSinks(b, v, true), true)
  {
    var s := EnableSinks(b) + EnableSources(b);
    IdealEnableSinks(b, v);
    IdealConcat(v, EnableSinks(b), EnableSources(b));
    IdealEnableSources(b, SetSinks(b, v, true));
    IdealSnoc(v, s, Check(false));
    IdealSnoc(v, s + [Check(false)], Gate);
  }

  lemma IdealDisable(b: Board, v: View)
    requires Fits(b, v)
    ensures Ideal(v, DisableScript(b)) == SetSinks(b, SetSources(v, false), false)
  {
    IdealDisableSources(b, v);
    IdealConcat(v, DisableSources(b), DisableSinks(b));
    IdealDisableSinks(b, SetSources(v, false));
    IdealSnoc(v, DisableSources(b) + DisableSinks(b), Gate);
  }

  lemma IdealSinksOn(b: Board, v: View)
    requires Fits(b, v)
    ensures Ideal(v, SinksOnScript(b)) == SetSinks(b, v, true)
  {
    var s0 := [Switch(Etb, true, true)];
    assert Ideal(v, s0) == v.(etb := true);
    IdealConcat(v, s0, TpiuOps(b, true));
    IdealTpiu(b, v.(etb := true), true);
    var s1 := s0 + TpiuOps(b, true);
    IdealConcat(v, s1, EtfOnOps(b.nSinks));
    IdealEtfOn(Ideal(v, s1), b.nSinks);
    var s2 := s1 + EtfOnOps(b.nSinks);
    IdealSnoc(v, s2, Check(false));
    IdealSnoc(v, s2 + [Check(false)], Gate);
  }

  lemma IdealSinksOff(b: Board, v: View)
    requires Fits(b, v)
    ensures Ideal(v, SinksOffScript(b)) == SetSinks(b, v, false)
  {
    var s0 := [Flush];
    assert Ideal(v, s0) == v;
    IdealConcat(v, s0, TpiuOps(b, false));
    IdealTpiu(b, v, false);
    var s1 := s0 + TpiuOps(b, false);
    IdealConcat(v, s1, EtfOffOps(b.nSinks));
    IdealEtfOff(Ideal(v, s1), b.nSinks);
    var s2 := s1 + EtfOffOps(b.nSinks);
    IdealSnoc(v, s2, Switch(Etb, false, false));
    IdealSnoc(v, s2 + [Switch(Etb, false, false)], Gate);
  }

  /** Every routine ends in the error check, so it returns 0 only with the count at zero. */
  lemma GatePassed(c: Csal, r: Run, s: seq<Op>)
    requires !r.halted && !Exec(c, r, s + [Gate]).halted
    ensures Exec(c, r, s + [Gate]).view.errors == 0
    ensures r.view.errors == 0 && Exec(c, r, s + [Gate]).view == Ideal(r.view, s + [Gate])
  {
    ExecSnoc(c, r, s, Gate);
    NoErrorIdeal(c, r, s + [Gate]);
  }

  // ---------------------------------------------------------------- counting calls

  /** The CSAL calls a script makes when nothing stops it; the error check is no device call. */
  function Calls(s: seq<Op>): nat {
    if s == [] then 0 else Calls(s[..|s| - 1]) + (if s[|s| - 1] == Gate then 0 else 1)
  }

  lemma CallsSnoc(s: seq<Op>, op: Op)
    ensures Calls(s + [op]) == Calls(s) + (if op == Gate then 0 else 1)
  {
    assert (s + [op])[..|s|] == s;
  }

  lemma {:induction false} CallsConcat(s: seq<Op>, t: seq<Op>)
    ensures Calls(s + t) == Calls(s) + Calls(t)
    decreases |t|
  {
    if t == [] {
      assert s + t == s;
    } else {
      var n := |t| - 1;
      assert s + t == (s + t[..n]) + [t[n]];
      CallsSnoc(s + t[..n], t[n]);
      CallsConcat(s, t[..n]);
    }
  }

  lemma {:induction false} PtmCalls(n: nat, on: bool)
    ensures Calls(PtmOps(n, on)) == n
  {
    if n > 0 {
      PtmCalls(n - 1, on);
      CallsSnoc(PtmOps(n - 1, on), Switch(Ptm(n - 1), on, false));
    }
  }

  lemma {:induction false} EtfCalls(n: nat)
    ensures Calls(EtfOnOps(n)) == 2 * n && Calls(EtfOffOps(n)) == n
  {
    if n > 0 {
      EtfCalls(n - 1);
      CallsSnoc(EtfOnOps(n - 1), Check(true));
      CallsSnoc(EtfOnOps(n - 1) + [Check(true)], Switch(Etf(n - 1), true, true));
      CallsSnoc(EtfOffOps(n - 1), Switch(Etf(n - 1), false, false));
    }
  }

  function TpiuCalls(b: Board): nat {
    if b.hasTpiu then 1 else 0
  }

  lemma TpiuOpsCalls(b: Board, on: bool)
    ensures Calls(TpiuOps(b, on)) == TpiuCalls(b)
  {
    if b.hasTpiu {
      assert TpiuOps(b, on)[..0] == [];
    }
  }

  /** The calls of enable_trace: the ETR twice, the TPIU, each ETF twice, then sources and checkpoint. */
  lemma EnableCallCount(b: Board)
    ensures Calls(EnableSinks(b)) == 2 + TpiuCalls(b) + 2 * b.nSinks
    ensures Calls(EnableScript(b)) == Calls(EnableSinks(b)) + b.nCpu + 4
  {
    EtfCalls(b.nSinks);
    PtmCalls(b.nCpu, true);
    TpiuOpsCalls(b, true);
    var etr := [Check(true)] + [Switch(Etb, true, true)];
    CallsSnoc([Check(true)], Switch(Etb, true, true));
    assert Calls([Check(true)]) == 1;
    CallsConcat(etr, TpiuOps(b, true));
    CallsConcat(etr + TpiuOps(b, true), EtfOnOps(b.nSinks));
    var p := PtmOps(b.nCpu, true);
    CallsSnoc(p, Check(true));
    CallsSnoc(p + [Check(true)], Check(true));
    CallsSnoc(p + [Check(true)] + [Check(true)], Switch(Itm, true, false));
    CallsConcat(EnableSinks(b), EnableSources(b));
    CallsSnoc(EnableSinks(b) + EnableSources(b), Check(false));
    CallsSnoc(EnableSinks(b) + EnableSources(b) + [Check(false)], Gate);
  }

  /** The sinks-only enable: the ETR once, the TPIU, each ETF twice, and the checkpoint. */
  lemma SinksOnCallCount(b: Board)
    ensures Calls(SinksOnScript(b)) == 2 + TpiuCalls(b) + 2 * b.nSinks
  {
    EtfCalls(b.nSinks);
    TpiuOpsCalls(b, true);
    var s0 := [Switch(Etb, true, true)];
    assert s0[..0] == [];
    CallsConcat(s0, TpiuOps(b, true));
    var s1 := s0 + TpiuOps(b, true);
    CallsConcat(s1, EtfOnOps(b.nSinks));
    var s2 := s1 + EtfOnOps(b.nSinks);
    CallsSnoc(s2, Check(false));
    CallsSnoc(s2 + [Check(false)], Gate);
  }

  predicate NoFlush(s: seq<Op>) {
    forall op | op in s :: !op.Flush?
  }

  predicate NoGate(s: seq<Op>) {
    forall op | op in s :: !op.Gate?
  }

  /** No script makes more calls than that, whatever fails. */
  lemma {:induction false} CallsAtMost(c: Csal, r: Run, s: seq<Op>)
    ensures r.ops <= Exec(c, r, s).ops <= r.ops + Calls(s)
    decreases |s|
  {
    if s != [] {
      CallsAtMost(c, r, s[..|s| - 1]);
    }
  }

  /** When every call works and no error is counted, it makes all of them and reaches the ideal view. */
  lemma {:induction false} WorkingRun(c: Csal, r: Run, s: seq<Op>)
    requires NoFlush(s) && !r.halted && r.view.errors == 0
    requires forall i: nat | r.ops <= i < r.ops + Calls(s) :: c(i).Works?
    ensures Exec(c, r, s) == Run(Ideal(r.view, s), r.ops + Calls(s), false)
    ensures Ideal(r.view, s).errors == 0
    decreases |s|
  {
    if s != [] {
      WorkingRun(c, r, s[..|s| - 1]);
      assert s[|s| - 1] in s;
    }
  }

  /** A stale error count does not change what the calls do, only what the checks say. */
  lemma {:induction false} WorkingRunStale(c: Csal, r: Run, s: seq<Op>)
    requires NoFlush(s) && NoGate(s) && !r.halted
    requires forall i: nat | r.ops <= i < r.ops + Calls(s) :: c(i).Works?
    ensures Exec(c, r, s) == Run(Ideal(r.view, s), r.ops + Calls(s), false)
    ensures Ideal(r.view, s).errors == r.view.errors
    decreases |s|
  {
    if s != [] {
      WorkingRunStale(c, r, s[..|s| - 1]);
      assert s[|s| - 1] in s;
    }
  }

  /** Every call of the script ends the routine when it fails. */
  predicate AllMust(s: seq<Op>) {
    forall op | op in s :: (op.Switch? || op.Check?) && op.must
  }

  /** If such a script was not stopped, every one of its calls was made and worked. */
  lemma {:induction false} MustRun(c: Csal, r: Run, s: seq<Op>)
    requires AllMust(s) && !r.halted && !Exec(c, r, s).halted
    ensures Exec(c, r, s).ops == r.ops + Calls(s)
    ensures forall i: nat | r.ops <= i < r.ops + Calls(s) :: c(i).Works?
    decreases |s|
  {
    if s != [] {
      assert s[|s| - 1] in s;
      MustRun(c, r, s[..|s| - 1]);
    }
  }
}
