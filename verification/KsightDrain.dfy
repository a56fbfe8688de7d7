/**
  fetch_ksight_events: read the ksight character device until it has no more events, doubling the
  host buffer whenever less than one event fits.
*/
module KsightDrain {
  import opened Common
  import opened AddressArithmetic
  import opened Chunks
  import opened HostBuffer

  /** sizeof(struct ksight_tag_event): two 32-byte objects and a timestamp. */
  const EVENT_SIZE: nat := 72

  datatype ReadResult = Data(bytes: seq<byte>) | WouldBlock | EndOfFile | Failed

  /** What read(fd, ptr, room) answers, by number of the call and room. */
  type Device = (nat, nat) -> ReadResult

  /** A read never returns more than it was asked for, and data only comes from the first `calls` reads. */
  ghost predicate ReadsFit(dev: Device, calls: nat) {
    forall i: nat, room: nat | dev(i, room).Data? :: i < calls && 0 < |dev(i, room).bytes| <= room
  }

  /** The driver hands out whole events. */
  ghost predicate WholeEvents(dev: Device) {
    forall i: nat, room: nat | dev(i, room).Data? :: |dev(i, room).bytes| % EVENT_SIZE == 0
  }

  /**
    LostMapping: mremap failed. The code compares its result with NULL, so it goes on with
    MAP_FAILED as the buffer and nothing can be said about memory any more.
  */
  datatype Outcome = Returned(ret: int) | LostMapping

  /** The reads of one drain: what each returned, how much room it had, and the room of the last one. */
  datatype Drain = Drain(got: seq<seq<byte>>, rooms: seq<nat>, last: nat)

  /** Read number `i` had room for an event and returned `bytes`. */
  predicate ReadGave(dev: Device, i: nat, bytes: seq<byte>, room: nat) {
    room >= EVENT_SIZE && dev(i, room) == Data(bytes)
  }

  ghost predicate Follows(dev: Device, d: Drain) {
    |d.rooms| == |d.got| && forall i | 0 <= i < |d.got| :: ReadGave(dev, i, d.got[i], d.rooms[i])
  }

  /** The read after the last data ended the drain with `ret`. */
  predicate Ends(dev: Device, d: Drain, ret: int) {
    var r := dev(|d.got|, d.last);
    d.last >= EVENT_SIZE && !r.Data? && ret == (if r == Failed then -1 else 0)
  }

  // ---------------------------------------------------------------- when the mapping is lost

  /** Less than one event fits into a mapping of `size` bytes of which `used` are taken. */
  predicate Short(size: nat, used: nat) {
    size < used + EVENT_SIZE
  }

  /** mremap refuses the doubling that read number `i` needs. */
  predicate Refuses(remap: Remap, i: nat, size: nat, used: nat) {
    Short(size, used) && remap(i, 2 * size).None?
  }

  /** The size of the mapping when read number `i` is made. */
  function SizeFor(size: nat, used: nat): nat {
    if Short(size, used) then 2 * size else size
  }

  /**
    Sooner or later the drain asks for a doubling that is refused: at read `i`, or after the data
    that read returns.
  */
  ghost predicate Loses(dev: Device, remap: Remap, calls: nat, i: nat, size: nat, used: nat)
    requires ReadsFit(dev, calls) && used <= size && size % PAGE_SIZE == 0 && size > 0
    decreases calls - i
  {
    || Refuses(remap, i, size, used)
    || var r := dev(i, SizeFor(size, used) - used);
       r.Data? && Loses(dev, remap, calls, i + 1, SizeFor(size, used), used + |r.bytes|)
  }

  /** Read number `i` finds room and data, and leaves a mapping of `size'` bytes with `used'` taken. */
  predicate Goes(dev: Device, remap: Remap, i: nat, size: nat, used: nat, size': nat, used': nat) {
    && !Refuses(remap, i, size, used)
    && used <= size && size' == SizeFor(size, used)
    && dev(i, size' - used).Data? && used' == used + |dev(i, size' - used).bytes|
  }

  /** One turn of the loop does not change the outcome. */
  lemma LosesNext(dev: Device, remap: Remap, calls: nat, i: nat, size: nat, used: nat, size': nat, used': nat)
    requires ReadsFit(dev, calls) && used <= size && size % PAGE_SIZE == 0 && size > 0
    requires Goes(dev, remap, i, size, used, size', used')
    ensures used' <= size' && size' % PAGE_SIZE == 0 && size' > 0
    ensures Loses(dev, remap, calls, i, size, used) <==> Loses(dev, remap, calls, i + 1, size', used')
  {
  }

  lemma LosesNow(dev: Device, remap: Remap, calls: nat, i: nat, size: nat, used: nat)
    requires ReadsFit(dev, calls) && used <= size && size % PAGE_SIZE == 0 && size > 0
    requires Refuses(remap, i, size, used) || !dev(i, SizeFor(size, used) - used).Data?
    ensures Loses(dev, remap, calls, i, size, used) <==> Refuses(remap, i, size, used)
  {
  }

  /** The kernel grants read number `j` the doubling that follows `k` others. */
  predicate Grants(remap: Remap, size: nat, j: nat, k: nat) {
    remap(j, 2 * Doubled(size, k)).Some?
  }

  /**
    It never does if the kernel grants the doublings a drain can ask for: at most one before each
    read.
  */
  lemma {:induction false} GrantedNeverLoses(dev: Device, remap: Remap, calls: nat, i: nat, size: nat, used: nat)
    requires ReadsFit(dev, calls) && used <= size && size % PAGE_SIZE == 0 && size > 0 && i <= calls
    requires forall j: nat, k: nat | i <= j <= calls && k <= j - i :: Grants(remap, size, j, k)
    ensures !Loses(dev, remap, calls, i, size, used)
    decreases calls - i
  {
    assert Grants(remap, size, i, 0);
    var size' := SizeFor(size, used);
    var r := dev(i, size' - used);
    if r.Data? {
      forall j: nat, k: nat | i + 1 <= j <= calls && k <= j - (i + 1) ensures Grants(remap, size', j, k) {
        DoubledShift(size, k);
        assert Grants(remap, size, j, k) && Grants(remap, size, j, k + 1);
      }
      GrantedNeverLoses(dev, remap, calls, i + 1, size', used + |r.bytes|);
    }
  }

  /** The NULL comparison matters: after one read of whole events the mapping is lost. */
  lemma MappingCanBeLost()
    ensures exists dev: Device, remap: Remap ::
      Kernel(remap) && ReadsFit(dev, 1) && WholeEvents(dev) && Loses(dev, remap, 1, 0, DEFAULT_TRACE_SIZE, 0)
  {
    var n := DEFAULT_TRACE_SIZE / EVENT_SIZE * EVENT_SIZE;
    var dev: Device := (i, room) => if i == 0 && n <= room then Data(Zeros(n)) else EndOfFile;
    var remap: Remap := (i, size) => None;
    assert Refuses(remap, 1, DEFAULT_TRACE_SIZE, n);
    assert dev(0, DEFAULT_TRACE_SIZE) == Data(Zeros(n));
    assert Loses(dev, remap, 1, 1, DEFAULT_TRACE_SIZE, n);
    assert Loses(dev, remap, 1, 0, DEFAULT_TRACE_SIZE, 0);
  }

  // ---------------------------------------------------------------- the drain

  /** The body of the size test: one doubling always makes room for an event, and only a refusal fails. */
  method MakeRoom(b: Buffer, remap: Remap, i: nat) returns (ok: bool)
    requires b.Valid() && Kernel(remap)
    modifies b
    ensures b.Valid() && b.Contents() == old(b.Contents()) && (b.mem == old(b.mem) || fresh(b.mem))
    ensures ok <==> !Refuses(remap, i, old(b.mem.Length), |old(b.Contents())|)
    ensures ok ==>
      && b.mem.Length == SizeFor(old(b.mem.Length), |old(b.Contents())|)
      && !Short(b.mem.Length, |b.Contents()|)
    ensures !ok ==> unchanged(b)
  {
    if b.mem.Length - (b.ptr - b.base) < EVENT_SIZE {
      var answer := remap(i, 2 * b.mem.Length);
      if answer.None? {
        return false;
      }
      b.Double(answer.value);
      OneDoublingSuffices(b.mem.Length, b.mem.Length - (b.ptr - b.base));
    }
    return true;
  }

  function Extended(d: Drain, bytes: seq<byte>, room: nat): Drain {
    Drain(d.got + [bytes], d.rooms + [room], room)
  }

  lemma FollowsExtended(dev: Device, d: Drain, bytes: seq<byte>, room: nat)
    requires Follows(dev, d) && room >= EVENT_SIZE && dev(|d.got|, room) == Data(bytes)
    ensures Follows(dev, Extended(d, bytes, room))
    ensures Flatten(Extended(d, bytes, room).got) == Flatten(d.got) + bytes
  {
    var e := Extended(d, bytes, room);
    forall i | 0 <= i < |e.got| ensures ReadGave(dev, i, e.got[i], e.rooms[i]) {
      if i < |d.got| {
        assert ReadGave(dev, i, d.got[i], d.rooms[i]);
      }
    }
    LayoutSnoc(d.got, bytes);
  }

  /** One turn of the loop: make room, read, and move past what was read. */
  method ReadOnce(b: Buffer, dev: Device, remap: Remap, i: nat, ghost calls: nat)
    returns (ok: bool, result: ReadResult, room: nat)
    requires b.Valid() && Kernel(remap) && ReadsFit(dev, calls)
    modifies b, b.mem
    ensures b.Valid() && (b.mem == old(b.mem) || fresh(b.mem))
    ensures ok <==> !Refuses(remap, i, old(b.mem.Length), |old(b.Contents())|)
    ensures ok ==>
      && b.mem.Length == SizeFor(old(b.mem.Length), |old(b.Contents())|)
      && room == b.mem.Length - |old(b.Contents())| >= EVENT_SIZE && result == dev(i, room)
    ensures ok && result.Data? ==> b.Contents() == old(b.Contents()) + result.bytes
    ensures !ok || !result.Data? ==> b.Contents() == old(b.Contents())
    ensures !ok ==> b.mem.Length == old(b.mem.Length)
  {
    result, room := EndOfFile, 0;
    ok := MakeRoom(b, remap, i);
    if ok {
      room := b.mem.Length - (b.ptr - b.base);
      result := dev(i, room);
      if result.Data? {
        b.Write(result.bytes);
      }
    }
  }

  /** Between two reads: the buffer holds `start` and all data so far. */
  ghost predicate Draining(b: Buffer, dev: Device, calls: nat, d: Drain, start: seq<byte>)
    reads b, b.mem
  {
    b.Valid() && Follows(dev, d) && |d.got| <= calls && b.Contents() == start + Flatten(d.got)
  }

  /** One turn of the loop: `None` means that it goes on. */
  method Turn(b: Buffer, dev: Device, remap: Remap, ghost calls: nat, d: Drain, ghost start: seq<byte>)
    returns (out: Option<Outcome>, e: Drain)
    requires Kernel(remap) && ReadsFit(dev, calls) && Draining(b, dev, calls, d, start)
    modifies b, b.mem
    ensures b.mem == old(b.mem) || fresh(b.mem)
    ensures Draining(b, dev, calls, e, start)
    ensures out.None? ==> |e.got| == |d.got| + 1
    ensures out.None? ==>
      Goes(dev, remap, |d.got|, old(b.mem.Length), |old(b.Contents())|, b.mem.Length, |b.Contents()|)
    ensures out.Some? ==> e.got == d.got
    ensures out == Some(LostMapping) <==> Refuses(remap, |d.got|, old(b.mem.Length), |old(b.Contents())|)
    ensures out == Some(LostMapping) ==> Refuses(remap, |e.got|, b.mem.Length, |b.Contents()|)
    ensures out.Some? && out.value.Returned? ==>
      Ends(dev, e, out.value.ret) && e.last == SizeFor(old(b.mem.Length), |old(b.Contents())|) - |old(b.Contents())|
  {
    var ok, result, room := ReadOnce(b, dev, remap, |d.got|, calls);
    if !ok {
      return Some(LostMapping), d;
    }
    if !result.Data? {
      return Some(Returned(if result == Failed then -1 else 0)), d.(last := room);
    }
    e := Extended(d, result.bytes, room);
    FollowsExtended(dev, d, result.bytes, room);
    assert start + Flatten(d.got) + result.bytes == start + Flatten(e.got);
    return None, e;
  }

  /**
    The read loop. It returns unless a doubling it needs is refused, and then everything read
    before that is in the buffer.
  */
  method ReadAll(b: Buffer, dev: Device, remap: Remap, ghost calls: nat) returns (out: Outcome, d: Drain)
    requires b.Valid() && Kernel(remap) && ReadsFit(dev, calls)
    modifies b, b.mem
    ensures b.Valid() && Follows(dev, d)
    ensures b.Contents() == old(b.Contents()) + Flatten(d.got)
    ensures out.LostMapping? <==> Loses(dev, remap, calls, 0, old(b.mem.Length), |old(b.Contents())|)
    ensures out.Returned? ==> Ends(dev, d, out.ret)
    ensures out.LostMapping? ==> Refuses(remap, |d.got|, b.mem.Length, |b.Contents()|)
  {
    d := Drain([], [], 0);
    ghost var start := b.Contents();
    ghost var fate := Loses(dev, remap, calls, 0, b.mem.Length, |start|);
    var stop: Option<Outcome> := None;
    while stop.None?
      invariant b.mem == old(b.mem) || fresh(b.mem)
      invariant Draining(b, dev, calls, d, start)
      invariant stop.None? ==> fate == Loses(dev, remap, calls, |d.got|, b.mem.Length, |b.Contents()|)
      invariant stop.Some? ==> Stopped(b, dev, remap, d, stop.value) && stop.value.LostMapping? == fate
      decreases calls - |d.got|, stop.None?
    {
      stop, d := FatedTurn(b, dev, remap, calls, d, start, fate);
    }
    out := stop.value;
  }

  /** How the loop can stop. */
  ghost predicate Stopped(b: Buffer, dev: Device, remap: Remap, d: Drain, out: Outcome)
    reads b, b.mem
  {
    && b.Valid()
    && (out.Returned? ==> Ends(dev, d, out.ret))
    && (out.LostMapping? ==> Refuses(remap, |d.got|, b.mem.Length, |b.Contents()|))
  }

  /** A turn and what it means for the outcome. */
  method FatedTurn(b: Buffer, dev: Device, remap: Remap, ghost calls: nat, d: Drain, ghost start: seq<byte>, ghost fate: bool)
    returns (out: Option<Outcome>, e: Drain)
    requires Kernel(remap) && ReadsFit(dev, calls) && Draining(b, dev, calls, d, start)
    requires fate == Loses(dev, remap, calls, |d.got|, b.mem.Length, |b.Contents()|)
    modifies b, b.mem
    ensures b.mem == old(b.mem) || fresh(b.mem)
    ensures Draining(b, dev, calls, e, start)
    ensures out.None? ==> |e.got| == |d.got| + 1
    ensures out.None? ==> fate == Loses(dev, remap, calls, |e.got|, b.mem.Length, |b.Contents()|)
    ensures out.Some? ==> |e.got| == |d.got| && Stopped(b, dev, remap, e, out.value)
    ensures out.Some? ==> out.value.LostMapping? == fate
  {
    ghost var i, size, used := |d.got|, b.mem.Length, |b.Contents()|;
    out, e := Turn(b, dev, remap, calls, d, start);
    if out.Some? {
      LosesNow(dev, remap, calls, i, size, used);
    } else {
      LosesNext(dev, remap, calls, i, size, used, b.mem.Length, |b.Contents()|);
    }
  }

  /**
    The buffer ends as what it held, padded, followed by everything read, in order; an error keeps
    all of that. Every read had room for at least one event. The drain returns exactly when no
    doubling it asks for is refused.
  */
  method DrainKsight(b: Buffer, hasDevice: bool, dev: Device, remap: Remap, ghost calls: nat)
    returns (out: Outcome, d: Drain)
    requires b.Valid() && Kernel(remap) && ReadsFit(dev, calls)
    modifies b, b.mem
    ensures b.Valid()
    ensures !hasDevice ==> out == Returned(-1) && b.Contents() == old(b.Contents())
    ensures hasDevice ==>
      && Follows(dev, d) && b.Contents() == Padded(old(b.Contents())) + Flatten(d.got)
      && |Padded(old(b.Contents()))| <= old(b.mem.Length)
      && (out.LostMapping? <==> Loses(dev, remap, calls, 0, old(b.mem.Length), |Padded(old(b.Contents()))|))
    ensures hasDevice && out.Returned? ==>
      && d.last >= EVENT_SIZE && !dev(|d.got|, d.last).Data?
      && out.ret == (if dev(|d.got|, d.last) == Failed then -1 else 0)
    ensures out.LostMapping? ==> Refuses(remap, |d.got|, b.mem.Length, |b.Contents()|)
  {
    if !hasDevice {
      return Returned(-1), Drain([], [], 0);
    }
    ValidIsUsable(b);
    b.Align();
    out, d := ReadAll(b, dev, remap, calls);
  }

  lemma OneDoublingSuffices(size: nat, remain: nat)
    requires size > 0 && size % PAGE_SIZE == 0 && size <= 2 * remain
    ensures remain >= EVENT_SIZE
  {
  }

  /** With whole events a buffer of whole events is never padded and stays one. */
  lemma {:induction false} EventsStayWhole(dev: Device, file: seq<byte>, d: Drain)
    requires WholeEvents(dev) && Follows(dev, d) && |file| % EVENT_SIZE == 0
    ensures Padded(file) == file
    ensures |Padded(file) + Flatten(d.got)| % EVENT_SIZE == 0
    decreases |d.got|
  {
    WholeIsPlain(file);
    if d.got != [] {
      var n := |d.got| - 1;
      var front := Drain(d.got[..n], d.rooms[..n], d.last);
      assert Follows(dev, front) by {
        forall i | 0 <= i < n ensures ReadGave(dev, i, front.got[i], front.rooms[i]) {
          assert ReadGave(dev, i, d.got[i], d.rooms[i]);
        }
      }
      EventsStayWhole(dev, file, front);
      assert ReadGave(dev, n, d.got[n], d.rooms[n]);
      WholeSum(|Padded(file) + Flatten(front.got)|, |d.got[n]|);
    }
  }

  /** 72 is a multiple of 8. */
  lemma WholeIsPlain(file: seq<byte>)
    requires |file| % EVENT_SIZE == 0
    ensures Padded(file) == file
  {
    Remainder(|file|, 8, 9 * (|file| / EVENT_SIZE), 0);
  }

  lemma WholeSum(a: nat, b: nat)
    requires a % EVENT_SIZE == 0 && b % EVENT_SIZE == 0
    ensures (a + b) % EVENT_SIZE == 0
  {
    Remainder(a + b, EVENT_SIZE, a / EVENT_SIZE + b / EVENT_SIZE, 0);
  }
}
