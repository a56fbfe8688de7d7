/**
  fetch_trace: align the cursor, double the mapping until the unread bytes of the ETB fit, read
  them, and move the cursor by whatever the read returned.
*/
module TraceFetch {
  import opened Common
  import opened AddressArithmetic
  import opened Chunks
  import opened HostBuffer

  // ---------------------------------------------------------------- growth

  /** How many times a mapping of `size` bytes is doubled before it holds `need`. */
  function Doublings(size: nat, need: nat): nat
    requires size > 0
    decreases need - size
  {
    if need <= size then 0 else 1 + Doublings(2 * size, need)
  }

  /**
    The final size is the smallest power-of-two multiple of the old one that fits: it is the old
    size or less than twice the need, and every smaller multiple is too small.
  */
  lemma {:induction false} GrowthIsLeast(size: nat, need: nat)
    requires size > 0
    ensures var k := Doublings(size, need);
      && need <= Doubled(size, k)
      && (k > 0 ==> Doubled(size, k) < 2 * need)
      && (forall j: nat | j < k :: Doubled(size, j) < need)
    decreases need - size
  {
    if need > size {
      GrowthIsLeast(2 * size, need);
      var k := Doublings(2 * size, need);
      DoubledShift(size, k);
      forall j: nat | j < k + 1 ensures Doubled(size, j) < need {
        if j > 0 {
          DoubledShift(size, j - 1);
        }
      }
    }
  }

  /** The loop guard: another doubling is due exactly while the bytes do not fit. */
  lemma MoreToGrow(size: nat, need: nat, k: nat)
    requires size > 0 && k <= Doublings(size, need)
    ensures k < Doublings(size, need) <==> Doubled(size, k) < need
  {
    GrowthIsLeast(size, need);
  }

  /** The kernel grants doubling number `i`. */
  predicate Granted(remap: Remap, size: nat, i: nat) {
    remap(i, 2 * Doubled(size, i)).Some?
  }

  /** Every mremap the growth asks for succeeds. */
  ghost predicate GrowthSucceeds(remap: Remap, size: nat, need: nat)
    requires size > 0
  {
    forall i: nat | i < Doublings(size, need) :: Granted(remap, size, i)
  }

  /** Doubling number `k` is the first one refused. */
  ghost predicate FirstRefusal(remap: Remap, size: nat, k: nat) {
    !Granted(remap, size, k) && forall i: nat | i < k :: Granted(remap, size, i)
  }

  /** The mapping stopped growing at the first mremap that failed. */
  ghost predicate GrowthStopped(remap: Remap, size: nat, need: nat, now: nat)
    requires size > 0
  {
    exists k: nat | k < Doublings(size, need) :: now == Doubled(size, k) && FirstRefusal(remap, size, k)
  }

  /**
    The loop of fetch_trace. It ends with the cursor offset and the contents untouched, either
    with room for `len` bytes or at the first mremap that fails.
  */
  method Grow(b: Buffer, len: nat, remap: Remap) returns (ok: bool)
    requires b.Valid() && Kernel(remap)
    modifies b
    ensures b.Valid() && b.Contents() == old(b.Contents())
    ensures b.mem == old(b.mem) || fresh(b.mem)
    ensures ok <==> GrowthSucceeds(remap, old(b.mem.Length), |old(b.Contents())| + len)
    ensures ok ==>
      && |b.Contents()| + len <= b.mem.Length
      && b.mem.Length == Doubled(old(b.mem.Length), Doublings(old(b.mem.Length), |old(b.Contents())| + len))
    ensures !ok ==> GrowthStopped(remap, old(b.mem.Length), |old(b.Contents())| + len, b.mem.Length)
  {
    ghost var size, need := b.mem.Length, |b.Contents()| + len;
    MoreToGrow(size, need, 0);
    var remain: nat := b.mem.Length - (b.ptr - b.base);
    var k: nat := 0;
    while len > remain
      invariant b.Valid() && b.Contents() == old(b.Contents())
      invariant b.mem == old(b.mem) || fresh(b.mem)
      invariant k <= Doublings(size, need) && b.mem.Length == Doubled(size, k)
      invariant k < Doublings(size, need) <==> len > remain
      invariant remain == b.mem.Length - (b.ptr - b.base)
      invariant forall i: nat | i < k :: Granted(remap, size, i)
      decreases Doublings(size, need) - k
    {
      var answer := remap(k, 2 * b.mem.Length);
      assert Granted(remap, size, k) <==> answer.Some?;
      if answer.None? {
        assert FirstRefusal(remap, size, k);
        return false;
      }
      b.Double(answer.value);
      k := k + 1;
      MoreToGrow(size, need, k);
      remain := b.mem.Length - (b.ptr - b.base);
    }
    return true;
  }

  // ---------------------------------------------------------------- one fetch

  /**
    The cursor moved by a negative read. The next fetch finds the same bytes exactly when the
    code is above -8; data fetched before the alignment (`was`) stays below the cursor exactly
    when the move stays within the alignment gap.
  */
  method MoveBack(b: Buffer, n: int, ghost was: seq<byte>)
    requires b.Valid() && |b.Contents()| % 8 == 0 && n < 0
    modifies b`ptr
    ensures b.Mapped() && b.ptr == old(b.ptr) + n
    ensures b.ptr >= b.base ==> b.mem[..b.ptr - b.base] == old(b.Contents())[..b.ptr - b.base]
    ensures n > -8 <==> b.Usable() && b.Settled() == old(b.Contents())
    ensures old(b.Contents()) == Padded(was) ==>
      (-n <= Gap(|was|) <==> b.Valid() && was <= b.Contents())
  {
    ghost var kept := b.Contents();
    b.ptr := b.ptr + n;
    assert b.mem[..|kept|] == kept;
    assert b.ptr >= b.base ==> b.mem[..b.ptr - b.base] == kept[..b.ptr - b.base];
    Restart(b, n, kept);
    if kept == Padded(was) {
      Retreat(b, n, was);
    }
  }

  /** What the next fetch finds after the cursor moved back by `-n` from the end of aligned data. */
  lemma Restart(b: Buffer, n: int, kept: seq<byte>)
    requires b.Mapped() && n < 0 && b.ptr == b.base + |kept| + n && |kept| <= b.mem.Length
    requires |kept| % 8 == 0 && b.mem[..|kept|] == kept
    requires forall i | |kept| <= i < b.mem.Length :: b.mem[i] == 0
    ensures n > -8 <==> b.Usable() && b.Settled() == kept
  {
    BackIff(|kept|, n);
    if n > -8 {
      assert b.Settled() == b.mem[..|kept|];
    } else if b.Usable() {
      assert |b.Settled()| != |kept|;
    }
  }

  /** What a cursor moved back by `-n` from the end of the padded data still covers. */
  lemma Retreat(b: Buffer, n: int, was: seq<byte>)
    requires b.Mapped() && n < 0 && b.ptr == b.base + |Padded(was)| + n && |Padded(was)| <= b.mem.Length
    requires b.mem[..|Padded(was)|] == Padded(was)
    requires forall i | |Padded(was)| <= i < b.mem.Length :: b.mem[i] == 0
    ensures -n <= Gap(|was|) <==> b.Valid() && was <= b.Contents()
  {
    var all := b.mem[..|Padded(was)|];
    assert forall i | 0 <= i < |all| :: b.mem[i] == all[i];
    if -n <= Gap(|was|) {
      assert forall i | |was| <= i < |all| :: all[i] == 0;
      assert b.Contents() == all[..b.ptr - b.base];
      assert was == all[..|was|];
    }
  }

  /** The first half of fetch_trace: align the cursor and grow the mapping. */
  method MakeRoom(b: Buffer, len: nat, remap: Remap) returns (ok: bool)
    requires b.Usable() && Kernel(remap)
    modifies b
    ensures b.Valid() && b.Contents() == old(b.Settled()) && |b.Contents()| % 8 == 0
    ensures b.mem == old(b.mem) || fresh(b.mem)
    ensures ok <==> GrowthSucceeds(remap, old(b.mem.Length), |old(b.Settled())| + len)
    ensures ok ==>
      && |b.Contents()| + len <= b.mem.Length
      && b.mem.Length == Doubled(old(b.mem.Length), Doublings(old(b.mem.Length), |old(b.Settled())| + len))
    ensures !ok ==> GrowthStopped(remap, old(b.mem.Length), |old(b.Settled())| + len, b.mem.Length)
  {
    GapIsLeast(b.ptr - b.base);
    b.Align();
    ok := Grow(b, len, remap);
  }

  /** The second half: cs_get_trace_data returned `n`, and the cursor moves by it. */
  method Receive(b: Buffer, unread: seq<byte>, n: int, ghost was: seq<byte>)
    requires b.Valid() && |b.Contents()| % 8 == 0 && |b.Contents()| + |unread| <= b.mem.Length && n <= |unread|
    modifies b`ptr, b.mem
    ensures b.Mapped() && b.ptr == old(b.ptr) + n
    ensures n >= 0 ==> b.Valid() && b.Contents() == old(b.Contents()) + unread[..n]
    ensures n < 0 && b.ptr >= b.base ==>
      b.mem[..b.ptr - b.base] == old(b.Contents())[..b.ptr - b.base]
    ensures n < 0 ==> (n > -8 <==> b.Usable() && b.Settled() == old(b.Contents()))
    ensures n < 0 && old(b.Contents()) == Padded(was) ==>
      (-n <= Gap(|was|) <==> b.Valid() && was <= b.Contents())
  {
    if n >= 0 {
      b.Write(unread[..n]);
    } else {
      MoveBack(b, n, was);
    }
  }

  /**
    fetch_trace with `unread` in the ETB, cs_get_trace_data returning `n`, and the kernel's
    answers to mremap. A short read takes a prefix; a negative `n` still moves the cursor.
  */
  method FetchTrace(b: Buffer, unread: seq<byte>, n: int, remap: Remap) returns (ret: int)
    requires b.Usable() && Kernel(remap) && n <= |unread|
    modifies b, b.mem
    ensures b.mem == old(b.mem) || fresh(b.mem)
    ensures ret == (if GrowthSucceeds(remap, old(b.mem.Length), |old(b.Settled())| + |unread|) then 0 else -1)
    ensures ret == 0 ==>
      b.mem.Length == Doubled(old(b.mem.Length), Doublings(old(b.mem.Length), |old(b.Settled())| + |unread|))
    ensures ret < 0 ==> GrowthStopped(remap, old(b.mem.Length), |old(b.Settled())| + |unread|, b.mem.Length)
    ensures ret < 0 ==> b.Valid() && b.Contents() == old(b.Settled())
    ensures ret == 0 && n >= 0 ==> b.Valid() && b.Contents() == old(b.Settled()) + unread[..n]
    ensures ret == 0 && n < 0 ==>
      b.Mapped() && b.ptr <= b.base + b.mem.Length && b.ptr == b.base + |old(b.Settled())| + n
    ensures ret == 0 && n < 0 && b.ptr >= b.base ==>
      b.mem[..b.ptr - b.base] == old(b.Settled())[..b.ptr - b.base]
    ensures ret == 0 && n < 0 ==> (n > -8 <==> b.Usable() && b.Settled() == old(b.Settled()))
    ensures ret == 0 && n < 0 && old(b.Valid()) ==>
      (-n <= Gap(|old(b.Contents())|) <==> b.Valid() && old(b.Contents()) <= b.Contents())
  {
    ghost var was := if b.Valid() then b.Contents() else [];
    if b.Valid() {
      ValidIsUsable(b);
    }
    var ok := MakeRoom(b, |unread|, remap);
    if !ok {
      return -1;
    }
    Receive(b, unread, n, was);
    return 0;
  }

  /** From an aligned offset. */
  lemma BackIff(a: nat, n: int)
    requires a % 8 == 0 && n <= 0
    ensures a + n > -8 && Aligned(a + n) == a <==> n > -8
  {
    if n > -8 {
      AlignedUnique(a + n, a);
    } else {
      GapIsLeast(a + n);
    }
  }

  /** After an error the next fetch starts at the same place exactly when the error code is above -8. */
  lemma RealignIff(off: nat, n: int)
    requires n <= 0
    ensures Aligned(off) + n > -8 && Aligned(Aligned(off) + n) == Aligned(off) <==> n > -8
  {
    GapIsLeast(off);
    BackIff(Aligned(off), n);
  }

  // ---------------------------------------------------------------- any number of fetches

  datatype Fetch = Fetch(unread: seq<byte>, n: int, remap: Remap)

  ghost predicate WellBehaved(f: Fetch) {
    -8 < f.n <= |f.unread| && Kernel(f.remap)
  }

  /** What a fetch that returned `ret` added to the file. */
  function Taken(f: Fetch, ret: int): seq<byte> {
    if ret == 0 && 0 <= f.n <= |f.unread| then f.unread[..f.n] else []
  }

  /** How far it left the cursor before the end of the data: a failed read moves it back. */
  function Moved(f: Fetch, ret: int): nat {
    if ret == 0 && f.n < 0 then -f.n else 0
  }

  /** The buffer after fetching `chunks`, the last fetch having moved the cursor back by `back`. */
  ghost predicate Holds(b: Buffer, chunks: seq<seq<byte>>, back: nat)
    reads b, b.mem
  {
    && b.Usable() && b.Settled() == Padded(Layout(chunks))
    && b.ptr - b.base == |Layout(chunks)| - back
  }

  /** A chunk at the cursor. */
  lemma HoldsAppended(b: Buffer, chunks: seq<seq<byte>>, c: seq<byte>)
    requires b.Valid() && b.Contents() == Append(Layout(chunks), c)
    ensures Holds(b, chunks + [c], 0)
  {
    LayoutSnoc(chunks, c);
    ValidIsUsable(b);
  }

  /** Nothing but padding, and the cursor moved back. */
  lemma HoldsPadded(b: Buffer, chunks: seq<seq<byte>>, back: nat)
    requires b.Usable() && b.Settled() == Padded(Layout(chunks))
    requires b.ptr == b.base + |Padded(Layout(chunks))| - back
    ensures Holds(b, chunks + [[]], back)
  {
    LayoutSnoc(chunks, []);
    GapIsLeast(|Layout(chunks)|);
    var whole := Padded(Layout(chunks));
    assert Layout(chunks + [[]]) == whole;
    PaddedPlain(whole);
  }

  /** What a fetch makes of a mapping of `size` bytes with `used` taken: its return code and the new size. */
  ghost predicate Grew(f: Fetch, used: nat, size: nat, ret: int, now: nat)
    requires size > 0
  {
    var need := used + |f.unread|;
    if GrowthSucceeds(f.remap, size, need) then ret == 0 && now == Doubled(size, Doublings(size, need))
    else ret == -1 && GrowthStopped(f.remap, size, need, now)
  }

  method FetchOnce(b: Buffer, f: Fetch, ghost chunks: seq<seq<byte>>, ghost back: nat) returns (ret: int)
    requires Holds(b, chunks, back) && WellBehaved(f)
    modifies b, b.mem
    ensures b.mem == old(b.mem) || fresh(b.mem)
    ensures Holds(b, chunks + [Taken(f, ret)], Moved(f, ret))
    ensures Grew(f, |Padded(Layout(chunks))|, old(b.mem.Length), ret, b.mem.Length)
  {
    ret := FetchTrace(b, f.unread, f.n, f.remap);
    if ret == 0 && f.n < 0 {
      HoldsPadded(b, chunks, -f.n);
    } else {
      assert b.Contents() == Append(Layout(chunks), Taken(f, ret));
      HoldsAppended(b, chunks, Taken(f, ret));
    }
  }

  /** export_trace, up to fwrite. */
  method ExportTrace(b: Buffer, ghost chunks: seq<seq<byte>>, ghost back: nat) returns (out: Export)
    requires Holds(b, chunks, back)
    ensures out == UpTo(Layout(chunks), back)
  {
    if b.ptr < b.base {
      return NegativeSize;
    }
    out := File(b.mem[..b.ptr - b.base]);
    ghost var whole := Layout(chunks);
    assert out.bytes == Padded(whole)[..b.ptr - b.base] == whole[..|whole| - back];
  }

  /** How far the last fetch moved the cursor back. */
  function LastMove(fetches: seq<Fetch>, rets: seq<int>): nat
    requires |fetches| == |rets|
  {
    if fetches == [] then 0 else Moved(fetches[|fetches| - 1], rets[|rets| - 1])
  }

  /** One fetch after `before`: it added `c`, returned `ret` and changed the size from `size` to `now`. */
  ghost predicate FetchDid(f: Fetch, before: seq<seq<byte>>, c: seq<byte>, size: nat, ret: int, now: nat) {
    size > 0 && Grew(f, |Padded(Layout(before))|, size, ret, now) && c == Taken(f, ret)
  }

  /** Fetch number `i` of a sequence. */
  ghost predicate FetchAt(fetches: seq<Fetch>, rets: seq<int>, chunks: seq<seq<byte>>, sizes: seq<nat>, i: nat)
    requires |rets| == |chunks| == |fetches| && |sizes| == |fetches| + 1 && i < |fetches|
  {
    FetchDid(fetches[i], chunks[..i], chunks[i], sizes[i], rets[i], sizes[i + 1])
  }

  /** What every fetch of a sequence returned, added and made of the mapping. */
  ghost predicate Story(fetches: seq<Fetch>, rets: seq<int>, chunks: seq<seq<byte>>, sizes: seq<nat>) {
    && |rets| == |chunks| == |fetches| && |sizes| == |fetches| + 1 && sizes[0] == DEFAULT_TRACE_SIZE
    && forall i: nat | i < |fetches| :: FetchAt(fetches, rets, chunks, sizes, i)
  }

  lemma StorySnoc(fetches: seq<Fetch>, rets: seq<int>, chunks: seq<seq<byte>>, sizes: seq<nat>,
                  f: Fetch, ret: int, c: seq<byte>, now: nat)
    requires Story(fetches, rets, chunks, sizes) && FetchDid(f, chunks, c, sizes[|fetches|], ret, now)
    ensures Story(fetches + [f], rets + [ret], chunks + [c], sizes + [now])
  {
    var n := |fetches|;
    forall i: nat | i < n + 1
      ensures FetchAt(fetches + [f], rets + [ret], chunks + [c], sizes + [now], i)
    {
      assert (chunks + [c])[..i] == chunks[..i];
      if i < n {
        assert FetchAt(fetches, rets, chunks, sizes, i);
      } else {
        assert chunks[..n] == chunks;
      }
    }
  }

  /** The buffer and the records after the fetches `done`. */
  ghost predicate Tracks(b: Buffer, done: seq<Fetch>, rets: seq<int>, chunks: seq<seq<byte>>, sizes: seq<nat>)
    reads b, b.mem
  {
    && Story(done, rets, chunks, sizes) && sizes[|done|] == b.mem.Length
    && Holds(b, chunks, LastMove(done, rets))
  }

  lemma TracksSnoc(b: Buffer, done: seq<Fetch>, rets: seq<int>, chunks: seq<seq<byte>>, sizes: seq<nat>, f: Fetch, ret: int)
    requires Story(done, rets, chunks, sizes)
    requires FetchDid(f, chunks, Taken(f, ret), sizes[|done|], ret, b.mem.Length)
    requires Holds(b, chunks + [Taken(f, ret)], Moved(f, ret))
    ensures Tracks(b, done + [f], rets + [ret], chunks + [Taken(f, ret)], sizes + [b.mem.Length])
  {
    StorySnoc(done, rets, chunks, sizes, f, ret, Taken(f, ret), b.mem.Length);
    assert LastMove(done + [f], rets + [ret]) == Moved(f, ret);
  }

  method FetchNext(b: Buffer, f: Fetch, ghost done: seq<Fetch>, ghost rets: seq<int>, ghost chunks: seq<seq<byte>>, ghost sizes: seq<nat>)
    returns (ret: int)
    requires WellBehaved(f) && Tracks(b, done, rets, chunks, sizes)
    modifies b, b.mem
    ensures b.mem == old(b.mem) || fresh(b.mem)
    ensures Tracks(b, done + [f], rets + [ret], chunks + [Taken(f, ret)], sizes + [b.mem.Length])
  {
    ret := FetchOnce(b, f, chunks, LastMove(done, rets));
    TracksSnoc(b, done, rets, chunks, sizes, f, ret);
  }

  /**
    alloc_trace_buf, any sequence of fetches, export_trace: the file is the layout of what each
    fetch took, through all doublings, moves, failed mremaps and failed reads with a code above
    -8, and a fetch fails exactly when a doubling it needs is refused. Only a failed read in the
    last fetch shows: the file then lacks its last bytes.
  */
  method FetchAndExport(base: nat, fetches: seq<Fetch>)
    returns (out: Export, rets: seq<int>, chunks: seq<seq<byte>>, sizes: seq<nat>)
    requires Mappable(base, DEFAULT_TRACE_SIZE)
    requires forall f | f in fetches :: WellBehaved(f)
    ensures Story(fetches, rets, chunks, sizes)
    ensures out == UpTo(Layout(chunks), LastMove(fetches, rets))
  {
    var b := new Buffer(base);
    ValidIsUsable(b);
    rets, chunks, sizes := [], [], [b.mem.Length];
    for i := 0 to |fetches|
      invariant fresh(b) && fresh(b.mem)
      invariant Tracks(b, fetches[..i], rets, chunks, sizes)
    {
      var ret := FetchNext(b, fetches[i], fetches[..i], rets, chunks, sizes);
      assert fetches[..i + 1] == fetches[..i] + [fetches[i]];
      rets, chunks, sizes := rets + [ret], chunks + [Taken(fetches[i], ret)], sizes + [b.mem.Length];
    }
    assert fetches[..|fetches|] == fetches;
    out := ExportTrace(b, chunks, LastMove(fetches, rets));
  }

  // ---------------------------------------------------------------- enough memory

  /** An upper bound on what the buffer must hold: the unread bytes of every fetch and its padding. */
  function Demand(fetches: seq<Fetch>): nat {
    if fetches == [] then 0
    else Demand(fetches[..|fetches| - 1]) + |fetches[|fetches| - 1].unread| + 8
  }

  /** The kernel grants every size below `limit`. */
  ghost predicate Generous(remap: Remap, limit: nat) {
    forall i: nat, size: nat | size < limit :: remap(i, size).Some?
  }

  lemma GenerousGrows(remap: Remap, size: nat, need: nat, limit: nat)
    requires size > 0 && Generous(remap, limit) && 2 * need <= limit
    ensures GrowthSucceeds(remap, size, need)
  {
    GrowthIsLeast(size, need);
    forall i: nat | i < Doublings(size, need) ensures Granted(remap, size, i) {
    }
  }

  lemma {:induction false} DemandGrows(fetches: seq<Fetch>, i: nat)
    requires i <= |fetches|
    ensures Demand(fetches[..i]) <= Demand(fetches)
    decreases |fetches|
  {
    var n := |fetches| - 1;
    if i <= n {
      DemandGrows(fetches[..n], i);
      assert fetches[..n][..i] == fetches[..i];
    } else {
      assert fetches[..i] == fetches;
    }
  }

  lemma {:induction false} DemandSuffices(fetches: seq<Fetch>, rets: seq<int>, chunks: seq<seq<byte>>, sizes: seq<nat>, i: nat)
    requires Story(fetches, rets, chunks, sizes) && i <= |fetches|
    ensures |Layout(chunks[..i])| <= Demand(fetches[..i])
  {
    if i > 0 {
      DemandSuffices(fetches, rets, chunks, sizes, i - 1);
      var f := fetches[i - 1];
      assert FetchAt(fetches, rets, chunks, sizes, i - 1);
      assert chunks[..i] == chunks[..i - 1] + [chunks[i - 1]];
      assert fetches[..i][..i - 1] == fetches[..i - 1];
      LayoutSnoc(chunks[..i - 1], chunks[i - 1]);
      GapIsLeast(|Layout(chunks[..i - 1])|);
    }
  }

  /** What a read that found room delivers. */
  function Delivered(f: Fetch): seq<byte> {
    if 0 <= f.n <= |f.unread| then f.unread[..f.n] else []
  }

  lemma NeedBound(fetches: seq<Fetch>, rets: seq<int>, chunks: seq<seq<byte>>, sizes: seq<nat>, i: nat)
    requires Story(fetches, rets, chunks, sizes) && i < |fetches|
    ensures |Padded(Layout(chunks[..i]))| + |fetches[i].unread| <= Demand(fetches)
  {
    DemandSuffices(fetches, rets, chunks, sizes, i);
    GapIsLeast(|Layout(chunks[..i])|);
    DemandGrows(fetches, i + 1);
    assert fetches[..i + 1][..i] == fetches[..i];
  }

  /**
    With a kernel that grants every size below twice the demand no fetch fails, and the file is
    the layout of exactly what the reads delivered.
  */
  lemma GenerousKernel(fetches: seq<Fetch>, rets: seq<int>, chunks: seq<seq<byte>>, sizes: seq<nat>, i: nat)
    requires Story(fetches, rets, chunks, sizes) && i < |fetches|
    requires Generous(fetches[i].remap, 2 * Demand(fetches))
    ensures rets[i] == 0 && chunks[i] == Delivered(fetches[i])
  {
    assert FetchAt(fetches, rets, chunks, sizes, i);
    var need := |Padded(Layout(chunks[..i]))| + |fetches[i].unread|;
    NeedBound(fetches, rets, chunks, sizes, i);
    GenerousGrows(fetches[i].remap, sizes[i], need, 2 * Demand(fetches));
  }

  /**
    A failing last read is not harmless: after one good fetch of a whole word, a read that
    returns `-code` takes the word's last bytes out of the exported file.
  */
  method LastBytesLost(base: nat, word: seq<byte>, code: nat, remap: Remap) returns (out: Export)
    requires Mappable(base, DEFAULT_TRACE_SIZE) && Kernel(remap) && |word| == 8 && 0 < code < 8
    ensures out == File(word[..8 - code])
  {
    var b := FetchWord(base, word, remap);
    WordLayout(word);
    var f := Fetch([], -(code as int), remap);
    FetchFitting(b, f, [word], 0);
    assert [word] + [Delivered(f)] == [word, []];
    out := ExportTrace(b, [word, []], code);
  }

  /** A fresh mapping after a fetch of one word. */
  method FetchWord(base: nat, word: seq<byte>, remap: Remap) returns (b: Buffer)
    requires Mappable(base, DEFAULT_TRACE_SIZE) && Kernel(remap) && |word| == 8
    ensures fresh(b) && fresh(b.mem) && Holds(b, [word], 0) && b.mem.Length == DEFAULT_TRACE_SIZE
  {
    b := new Buffer(base);
    ValidIsUsable(b);
    var f := Fetch(word, 8, remap);
    assert word[..8] == word;
    assert [] + [Delivered(f)] == [word];
    FetchFitting(b, f, [], 0);
  }

  lemma WordLayout(word: seq<byte>)
    requires |word| == 8
    ensures Layout([]) == [] && Layout([word]) == word && Layout([word, []]) == word
  {
    PaddedPlain([]);
    PaddedPlain(word);
    LayoutSnoc([], word);
    LayoutSnoc([word], []);
    assert [] + [word] == [word] && [word] + [[]] == [word, []];
  }

  /** A fetch that finds room without growing returns 0. */
  method FetchFitting(b: Buffer, f: Fetch, ghost chunks: seq<seq<byte>>, ghost back: nat)
    requires Holds(b, chunks, back) && WellBehaved(f) && |Layout(chunks)| + 8 + |f.unread| <= b.mem.Length
    modifies b, b.mem
    ensures b.mem == old(b.mem) || fresh(b.mem)
    ensures b.mem.Length == old(b.mem.Length)
    ensures Holds(b, chunks + [Delivered(f)], if f.n < 0 then -f.n else 0)
  {
    GapIsLeast(|Layout(chunks)|);
    NoGrowth(f.remap, b.mem.Length, |Padded(Layout(chunks))| + |f.unread|);
    var ret := FetchOnce(b, f, chunks, back);
    assert ret == 0;
  }

  lemma NoGrowth(remap: Remap, size: nat, need: nat)
    requires 0 < size && need <= size
    ensures Doublings(size, need) == 0 && Doubled(size, 0) == size && GrowthSucceeds(remap, size, need)
  {
  }
}
