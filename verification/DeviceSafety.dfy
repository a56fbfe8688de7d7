/**
  What no failure can break: the order in which sources and sinks are switched. A source never
  runs into a sink that is off unless an error has been counted.
*/
module DeviceSafety {
  import opened Devices

  predicate AnySource(v: View) {
    v.itm || exists i | 0 <= i < |v.ptm| :: v.ptm[i]
  }

  predicate AllSinks(b: Board, v: View) {
    v.etb && (b.hasTpiu ==> v.tpiu) && forall i | 0 <= i < |v.etf| :: v.etf[i]
  }

  /** A source runs only into sinks that are all on, unless an error has been counted. */
  predicate Safe(b: Board, v: View) {
    AnySource(v) ==> AllSinks(b, v) || v.errors > 0
  }

  predicate SourceOp(op: Op) {
    op.Switch? && (op.t.Ptm? || op.t.Itm?)
  }

  predicate SinkOp(op: Op) {
    op.Switch? && !SourceOp(op)
  }

  predicate NoSourceOps(s: seq<Op>) {
    forall op | op in s :: !SourceOp(op)
  }

  predicate NoSinkOps(s: seq<Op>) {
    forall op | op in s :: !SinkOp(op)
  }

  predicate SameSources(v: View, w: View) {
    v.ptm == w.ptm && v.itm == w.itm
  }

  predicate SameSinks(v: View, w: View) {
    v.etb == w.etb && v.etf == w.etf && v.tpiu == w.tpiu
  }

  /** Whatever fails, a script without source operations leaves the sources alone. */
  lemma {:induction false} SourcesKept(c: Csal, r: Run, s: seq<Op>)
    requires NoSourceOps(s)
    ensures SameSources(r.view, Exec(c, r, s).view)
    decreases |s|
  {
    if s != [] {
      var n := |s| - 1;
      SourcesKept(c, r, s[..n]);
      assert !SourceOp(s[n]);
    }
  }

  lemma {:induction false} SinksKept(c: Csal, r: Run, s: seq<Op>)
    requires NoSinkOps(s)
    ensures SameSinks(r.view, Exec(c, r, s).view)
    decreases |s|
  {
    if s != [] {
      var n := |s| - 1;
      SinksKept(c, r, s[..n]);
      assert !SinkOp(s[n]);
    }
  }

  lemma {:induction false} PtmOpsKinds(n: nat, on: bool)
    ensures NoSinkOps(PtmOps(n, on))
  {
    if n > 0 { PtmOpsKinds(n - 1, on); }
  }

  lemma {:induction false} EtfOpsKinds(n: nat)
    ensures NoSourceOps(EtfOnOps(n)) && NoSourceOps(EtfOffOps(n))
  {
    if n > 0 { EtfOpsKinds(n - 1); }
  }

  lemma ScriptKinds(b: Board)
    ensures NoSourceOps(EnableSinks(b)) && NoSinkOps(EnableSources(b))
    ensures NoSinkOps(DisableSources(b)) && NoSourceOps(DisableSinks(b))
    ensures NoSourceOps(SinksOnScript(b)) && NoSourceOps(SinksOffScript(b))
  {
    PtmOpsKinds(b.nCpu, true);
    PtmOpsKinds(b.nCpu, false);
    EtfOpsKinds(b.nSinks);
  }

  /** A prefix of s + t is a prefix of s, or s followed by a prefix of t. */
  lemma PrefixOf(s: seq<Op>, t: seq<Op>, k: nat)
    requires k <= |s| + |t|
    ensures k <= |s| ==> (s + t)[..k] == s[..k]
    ensures k > |s| ==> (s + t)[..k] == s + t[..k - |s|]
  {
  }

  /** At every step of enable_trace from sources off, early error returns included. */
  lemma EnableStepsSafe(c: Csal, b: Board, r: Run, k: nat)
    requires Fits(b, r.view) && !r.halted && !AnySource(r.view) && k <= |EnableScript(b)|
    ensures Safe(b, Exec(c, r, EnableScript(b)[..k]).view)
  {
    ScriptKinds(b);
    var s, t := EnableSinks(b), EnableSources(b) + [Check(false)] + [Gate];
    assert EnableScript(b) == s + t;
    PrefixOf(s, t, k);
    if k <= |s| {
      SourcesKept(c, r, s[..k]);
    } else {
      var t' := t[..k - |s|];
      ExecConcat(c, r, s, t');
      var mid := Exec(c, r, s);
      SinksKept(c, mid, t');
      if mid.view.errors == 0 {
        NoErrorIdeal(c, r, s);
        IdealEnableSinks(b, r.view);
      } else {
        ErrorsStay(c, mid, t');
      }
    }
  }

  /** At every step of disable_trace from sinks on, early error returns included. */
  lemma DisableStepsSafe(c: Csal, b: Board, r: Run, k: nat)
    requires Fits(b, r.view) && !r.halted && AllSinks(b, r.view) && k <= |DisableScript(b)|
    ensures Safe(b, Exec(c, r, DisableScript(b)[..k]).view)
  {
    ScriptKinds(b);
    var s, t := DisableSources(b), DisableSinks(b) + [Gate];
    assert DisableScript(b) == s + t;
    PrefixOf(s, t, k);
    if k <= |s| {
      SinksKept(c, r, s[..k]);
    } else {
      var t' := t[..k - |s|];
      ExecConcat(c, r, s, t');
      var mid := Exec(c, r, s);
      SourcesKept(c, mid, t');
      if mid.view.errors == 0 {
        NoErrorIdeal(c, r, s);
        IdealDisableSources(b, r.view);
      } else {
        ErrorsStay(c, mid, t');
      }
    }
  }

  lemma ErrorsStay(c: Csal, r: Run, s: seq<Op>)
    ensures r.view.errors <= Exec(c, r, s).view.errors
  {
    if r.halted {
      ExecHalted(c, r, s);
    } else {
      ErrorsGrow(c, r, s);
    }
  }

  lemma {:induction false} EtfOnMust(n: nat)
    ensures AllMust(EtfOnOps(n))
  {
    if n > 0 { EtfOnMust(n - 1); }
  }

  /**
    A failed call among those for the ETR, the TPIU and the ETFs ends enable_trace before any
    source is touched.
  */
  lemma SinkFailureSparesSources(c: Csal, b: Board, r: Run, i: nat)
    requires !r.halted && r.ops <= i < r.ops + 2 + TpiuCalls(b) + 2 * b.nSinks && c(i).Breaks?
    ensures Exec(c, r, EnableScript(b)).halted && Exec(c, r, EnableScript(b)).ops <= i + 1
    ensures SameSources(r.view, Exec(c, r, EnableScript(b)).view)
  {
    var s, t := EnableSinks(b), EnableSources(b) + [Check(false)] + [Gate];
    assert EnableScript(b) == s + t;
    EtfOnMust(b.nSinks);
    EnableCallCount(b);
    if !Exec(c, r, s).halted {
      MustRun(c, r, s);
    }
    HaltsThere(c, r, s, t);
    StopsAtFailure(c, r, s, i);
    ScriptKinds(b);
    SourcesKept(c, r, s);
  }

  /** No call is made after one that fails. */
  lemma {:induction false} StopsAtFailure(c: Csal, r: Run, s: seq<Op>, i: nat)
    requires AllMust(s) && !r.halted && r.ops <= i && c(i).Breaks?
    ensures Exec(c, r, s).ops <= i + 1
    ensures Exec(c, r, s).ops == i + 1 ==> Exec(c, r, s).halted
    decreases |s|
  {
    if s != [] {
      StopsAtFailure(c, r, s[..|s| - 1], i);
      assert s[|s| - 1] in s;
    }
  }

  /** enable_trace up to the two set-up calls of the STM. */
  function UpToStm(b: Board, j: nat): seq<Op> {
    EnableSinks(b) + PtmOps(b.nCpu, true) + (if j == 0 then [] else [Check(true)])
  }

  lemma UpToStmCalls(b: Board, j: nat)
    requires j < 2
    ensures Calls(UpToStm(b, j)) == 2 + TpiuCalls(b) + 2 * b.nSinks + b.nCpu + j
  {
    EnableCallCount(b);
    PtmCalls(b.nCpu, true);
    CallsConcat(EnableSinks(b), PtmOps(b.nCpu, true));
    var s := EnableSinks(b) + PtmOps(b.nCpu, true);
    CallsSnoc(s, Check(true));
    assert s + [] == s;
  }

  lemma UpToStmPrefix(b: Board, j: nat)
    requires j < 2
    ensures UpToStm(b, j) + [Check(true)] <= EnableScript(b)
  {
    var s := EnableSinks(b) + PtmOps(b.nCpu, true);
    var t := [Switch(Itm, true, false)] + [Check(false)] + [Gate];
    assert EnableScript(b) == s + [Check(true)] + ([Check(true)] + t);
  }

  lemma UpToStmPlain(b: Board, j: nat)
    requires j < 2
    ensures NoFlush(UpToStm(b, j))
  {
    EtfOnMust(b.nSinks);
    PtmPlain(b.nCpu);
  }

  lemma {:induction false} PtmPlain(n: nat)
    ensures NoFlush(PtmOps(n, true))
  {
    if n > 0 { PtmPlain(n - 1); }
  }

  lemma IdealUpToStm(b: Board, v: View, j: nat)
    requires Fits(b, v)
    ensures Ideal(v, UpToStm(b, j)).itm == v.itm
    ensures Ideal(v, UpToStm(b, j)).ptm == Fill(v.ptm, b.nCpu, true)
  {
    IdealEnableSinks(b, v);
    IdealConcat(v, EnableSinks(b), PtmOps(b.nCpu, true));
    IdealPtm(SetSinks(b, v, true), b.nCpu, true);
    var s := EnableSinks(b) + PtmOps(b.nCpu, true);
    IdealSnoc(v, s, Check(true));
    assert s + [] == s;
  }

  /**
    If one of the two set-up calls of the STM is the first to fail, enable_trace returns with the
    ETMs on and the STM as it was.
  */
  lemma StmFailureSparesStm(c: Csal, b: Board, r: Run, j: nat)
    requires Fits(b, r.view) && !r.halted && r.view.errors == 0 && j < 2
    requires forall i: nat | r.ops <= i < r.ops + 2 + TpiuCalls(b) + 2 * b.nSinks + b.nCpu + j :: c(i).Works?
    requires c(r.ops + 2 + TpiuCalls(b) + 2 * b.nSinks + b.nCpu + j).Breaks?
    ensures
      var e := Exec(c, r, EnableScript(b));
      && e.halted && e.ops == r.ops + 2 + TpiuCalls(b) + 2 * b.nSinks + b.nCpu + j + 1
      && e.view.itm == r.view.itm && e.view.ptm == Fill(r.view.ptm, b.nCpu, true)
  {
    var s := UpToStm(b, j);
    UpToStmCalls(b, j);
    UpToStmPrefix(b, j);
    UpToStmPlain(b, j);
    WorkingRun(c, r, s);
    IdealUpToStm(b, r.view, j);
    CheckFails(c, Exec(c, r, s));
    FailsInside(c, r, s, EnableScript(b));
  }

  lemma CheckFails(c: Csal, x: Run)
    requires !x.halted && c(x.ops).Breaks?
    ensures Do(c, x, Check(true)) == Run(Counted(x.view), x.ops + 1, true)
  {
  }

  lemma FailsInside(c: Csal, r: Run, s: seq<Op>, script: seq<Op>)
    requires s + [Check(true)] <= script && Do(c, Exec(c, r, s), Check(true)).halted
    ensures Exec(c, r, script) == Do(c, Exec(c, r, s), Check(true))
  {
    ExecSnoc(c, r, s, Check(true));
    var t := script[|s| + 1..];
    assert script == s + [Check(true)] + t;
    HaltsThere(c, r, s + [Check(true)], t);
  }

  // ---------------------------------------------------------------- the order of the sinks

  /** An ETF drains only into an ETR that is on, unless an error has been counted. */
  predicate Drained(v: View) {
    (exists i | 0 <= i < |v.etf| :: v.etf[i]) ==> v.etb || v.errors > 0
  }

  predicate NoEtbOps(s: seq<Op>) {
    forall op | op in s :: op.Switch? ==> op.t != Etb
  }

  predicate NoEtfOps(s: seq<Op>) {
    forall op | op in s :: op.Switch? ==> !op.t.Etf?
  }

  lemma {:induction false} EtbKept(c: Csal, r: Run, s: seq<Op>)
    requires NoEtbOps(s)
    ensures r.view.etb == Exec(c, r, s).view.etb
    decreases |s|
  {
    if s != [] {
      EtbKept(c, r, s[..|s| - 1]);
      assert s[|s| - 1] in s;
    }
  }

  lemma DoEtfs(c: Csal, r: Run, op: Op)
    requires op.Switch? ==> !op.t.Etf?
    ensures r.view.etf == Do(c, r, op).view.etf
  {
  }

  lemma {:induction false} EtfsKept(c: Csal, r: Run, s: seq<Op>)
    requires NoEtfOps(s)
    ensures r.view.etf == Exec(c, r, s).view.etf
    decreases |s|
  {
    if s != [] {
      EtfsKept(c, r, s[..|s| - 1]);
      DoEtfs(c, Exec(c, r, s[..|s| - 1]), s[|s| - 1]);
    }
  }

  lemma {:induction false} OtherOps(n: nat, on: bool)
    ensures NoEtbOps(EtfOnOps(n)) && NoEtbOps(EtfOffOps(n))
    ensures NoEtbOps(PtmOps(n, on)) && NoEtfOps(PtmOps(n, on))
  {
    if n > 0 { OtherOps(n - 1, on); }
  }

  /** A script that switches the ETR on in `pre` and then leaves it alone. */
  lemma EtbFirst(c: Csal, b: Board, r: Run, pre: seq<Op>, rest: seq<Op>, k: nat)
    requires !r.halted && Drained(r.view) && k <= |pre| + 1 + |rest|
    requires NoEtbOps(pre) && NoEtfOps(pre) && NoEtbOps(rest)
    ensures Drained(Exec(c, r, (pre + [Switch(Etb, true, true)] + rest)[..k]).view)
  {
    var on := Switch(Etb, true, true);
    var head := pre + [on];
    PrefixOf(head, rest, k);
    if k <= |pre| {
      assert head[..k] == pre[..k];
      EtbKept(c, r, pre[..k]);
      EtfsKept(c, r, pre[..k]);
      ErrorsStay(c, r, pre[..k]);
    } else {
      EtbOnOrError(c, r, pre);
      var mid := Exec(c, r, head);
      if k == |head| {
        assert head[..k] == head;
      } else {
        ExecConcat(c, r, head, rest[..k - |head|]);
        EtbKept(c, mid, rest[..k - |head|]);
        ErrorsStay(c, mid, rest[..k - |head|]);
      }
    }
  }

  lemma EtbOnOrError(c: Csal, r: Run, pre: seq<Op>)
    requires !r.halted
    ensures
      var v := Exec(c, r, pre + [Switch(Etb, true, true)]).view;
      v.etb || v.errors > 0
  {
    ErrorsGrow(c, r, pre);
    ExecSnoc(c, r, pre, Switch(Etb, true, true));
  }

  lemma FullSinkOrder(c: Csal, b: Board, r: Run, k: nat)
    requires !r.halted && Drained(r.view) && k <= |EnableScript(b)|
    ensures Drained(Exec(c, r, EnableScript(b)[..k]).view)
  {
    OtherOps(b.nSinks, true);
    OtherOps(b.nCpu, true);
    var rest := TpiuOps(b, true) + EtfOnOps(b.nSinks) + EnableSources(b) + [Check(false)] + [Gate];
    assert EnableScript(b) == [Check(true)] + [Switch(Etb, true, true)] + rest;
    EtbFirst(c, b, r, [Check(true)], rest, k);
  }

  lemma SinksOnlyOrder(c: Csal, b: Board, r: Run, k: nat)
    requires !r.halted && Drained(r.view) && k <= |SinksOnScript(b)|
    ensures Drained(Exec(c, r, SinksOnScript(b)[..k]).view)
  {
    OtherOps(b.nSinks, true);
    var rest := TpiuOps(b, true) + EtfOnOps(b.nSinks) + [Check(false)] + [Gate];
    assert SinksOnScript(b) == [] + [Switch(Etb, true, true)] + rest;
    EtbFirst(c, b, r, [], rest, k);
  }

  /** Both enables switch the ETR on before any ETF, at every step and early return. */
  lemma EnableSinkOrder(c: Csal, b: Board, r: Run, k: nat, l: nat)
    requires !r.halted && Drained(r.view) && k <= |EnableScript(b)| && l <= |SinksOnScript(b)|
    ensures Drained(Exec(c, r, EnableScript(b)[..k]).view)
    ensures Drained(Exec(c, r, SinksOnScript(b)[..l]).view)
  {
    FullSinkOrder(c, b, r, k);
    SinksOnlyOrder(c, b, r, l);
  }

  /** A script that switches the ETFs off before it touches the ETR. */
  lemma EtfsFirst(c: Csal, b: Board, r: Run, pre: seq<Op>, rest: seq<Op>, k: nat)
    requires Fits(b, r.view) && !r.halted && r.view.etb && k <= |pre| + b.nSinks + |rest|
    requires NoEtbOps(pre) && NoEtfOps(pre) && NoEtfOps(rest) && |EtfOffOps(b.nSinks)| == b.nSinks
    ensures Drained(Exec(c, r, (pre + EtfOffOps(b.nSinks) + rest)[..k]).view)
  {
    var head := pre + EtfOffOps(b.nSinks);
    OtherOps(b.nSinks, false);
    PrefixOf(head, rest, k);
    if k <= |head| {
      assert NoEtbOps(head[..k]);
      EtbKept(c, r, head[..k]);
    } else {
      var mid := Exec(c, r, head);
      var t := rest[..k - |head|];
      ExecConcat(c, r, head, t);
      EtfsKept(c, mid, t);
      EtfsOffOrError(c, b, r, pre);
      ErrorsStay(c, mid, t);
    }
  }

  lemma EtfsOffOrError(c: Csal, b: Board, r: Run, pre: seq<Op>)
    requires Fits(b, r.view) && !r.halted && NoEtfOps(pre)
    ensures
      var v := Exec(c, r, pre + EtfOffOps(b.nSinks)).view;
      v.errors > 0 || forall i | 0 <= i < |v.etf| :: !v.etf[i]
  {
    var s := pre + EtfOffOps(b.nSinks);
    if Exec(c, r, s).view.errors == 0 {
      NoErrorIdeal(c, r, s);
      IdealConcat(r.view, pre, EtfOffOps(b.nSinks));
      IdealEtfs(r.view, pre);
      IdealEtfOff(Ideal(r.view, pre), b.nSinks);
    }
  }

  lemma {:induction false} IdealEtfs(v: View, s: seq<Op>)
    requires NoEtfOps(s)
    ensures Ideal(v, s).etf == v.etf
    decreases |s|
  {
    if s != [] {
      IdealEtfs(v, s[..|s| - 1]);
      assert s[|s| - 1] in s;
    }
  }

  lemma {:induction false} EtfOffLength(n: nat)
    ensures |EtfOffOps(n)| == n
  {
    if n > 0 { EtfOffLength(n - 1); }
  }

  lemma FullOffOrder(c: Csal, b: Board, r: Run, k: nat)
    requires Fits(b, r.view) && !r.halted && r.view.etb && k <= |DisableScript(b)|
    ensures Drained(Exec(c, r, DisableScript(b)[..k]).view)
  {
    EtfOffLength(b.nSinks);
    OtherOps(b.nCpu, false);
    var rest := [Switch(Etb, false, false)] + TpiuOps(b, false) + [Gate];
    assert DisableScript(b) == DisableSources(b) + EtfOffOps(b.nSinks) + rest;
    EtfsFirst(c, b, r, DisableSources(b), rest, k);
  }

  lemma SinksOffOrder(c: Csal, b: Board, r: Run, k: nat)
    requires Fits(b, r.view) && !r.halted && r.view.etb && k <= |SinksOffScript(b)|
    ensures Drained(Exec(c, r, SinksOffScript(b)[..k]).view)
  {
    EtfOffLength(b.nSinks);
    var pre, rest := [Flush] + TpiuOps(b, false), [Switch(Etb, false, false)] + [Gate];
    assert SinksOffScript(b) == pre + EtfOffOps(b.nSinks) + rest;
    EtfsFirst(c, b, r, pre, rest, k);
  }

  /** Both disables switch the ETR off after every ETF, at every step and early return. */
  lemma DisableSinkOrder(c: Csal, b: Board, r: Run, k: nat, l: nat)
    requires Fits(b, r.view) && !r.halted && r.view.etb && k <= |DisableScript(b)| && l <= |SinksOffScript(b)|
    ensures Drained(Exec(c, r, DisableScript(b)[..k]).view)
    ensures Drained(Exec(c, r, SinksOffScript(b)[..l]).view)
  {
    FullOffOrder(c, b, r, k);
    SinksOffOrder(c, b, r, l);
  }
}
