/**
  Choosing the CPU to trace on: the core_cpus_list parser, the search for a CPU that shares no
  core with the process, and the fallback of init_trace.
*/
module CpuChoice {

  import opened Common

  const LONG_MAX: int := 0x7fff_ffff_ffff_ffff
  const LONG_MIN: int := -0x8000_0000_0000_0000

  // ---------------------------------------------------------------- strtol(token, NULL, 0)

  function Digit(c: char): nat {
    if '0' <= c <= '9' then c as nat - '0' as nat
    else if 'a' <= c <= 'f' then c as nat - 'a' as nat + 10
    else if 'A' <= c <= 'F' then c as nat - 'A' as nat + 10
    else 99
  }

  /** The value of the digits `s` starts with, after `acc`. */
  function Digits(s: string, radix: nat, acc: nat): nat {
    if s == [] || Digit(s[0]) >= radix then acc
    else Digits(s[1..], radix, acc * radix + Digit(s[0]))
  }

  predicate Space(c: char) {
    c == ' ' || '\t' <= c <= '\r'
  }

  function SkipSpace(s: string): string {
    if s != [] && Space(s[0]) then SkipSpace(s[1..]) else s
  }

  function Magnitude(s: string): nat {
    if |s| > 2 && s[0] == '0' && (s[1] == 'x' || s[1] == 'X') && Digit(s[2]) < 16 then Digits(s[2..], 16, 0)
    else if s != [] && s[0] == '0' then Digits(s, 8, 0)
    else Digits(s, 10, 0)
  }

  function Strtol(token: string): int {
    var s := SkipSpace(token);
    var v: int := if s != [] && s[0] == '-' then -(Magnitude(s[1..]) as int)
                  else if s != [] && s[0] == '+' then Magnitude(s[1..])
                  else Magnitude(s);
    if v > LONG_MAX then LONG_MAX else if v < LONG_MIN then LONG_MIN else v
  }

  // ---------------------------------------------------------------- set_core_cpus

  /** The length of the token getdelim(',') returns: up to and including the comma, or the rest. */
  function TokenLength(s: string): (n: nat)
    requires s != []
    ensures 1 <= n <= |s|
  {
    if s[0] == ',' || |s| == 1 then 1 else 1 + TokenLength(s[1..])
  }

  /** The last character is overwritten by a NUL, unless the token is one character or ends in one. */
  function Chop(token: string): string {
    if |token| > 1 && token[|token| - 1] != '\0' then token[..|token| - 1] else token
  }

  /** (int)core_cpu */
  function ToInt(v: int): int {
    (v + 0x8000_0000) % 0x1_0000_0000 - 0x8000_0000
  }

  /** CPU_SET_S: an index outside the set is ignored. */
  function CpuSet(set_: set<nat>, cpu: int, capacity: nat): set<nat> {
    if 0 <= cpu < capacity then set_ + {cpu} else set_
  }

  /** The set after parsing the rest of the file; None when strtol overflows. */
  function Parsed(s: string, sofar: set<nat>, capacity: nat): Option<set<nat>>
    decreases |s|
  {
    if s == [] then Some(sofar)
    else
      var n := TokenLength(s);
      var v := Strtol(Chop(s[..n]));
      if v == LONG_MIN || v == LONG_MAX then None
      else Parsed(s[n..], CpuSet(sofar, ToInt(v), capacity), capacity)
  }

  method SetCoreCpus(content: string, cpus: set<nat>, capacity: nat) returns (r: Option<set<nat>>)
    ensures r == Parsed(content, cpus, capacity)
  {
    var rest, sofar := content, cpus;
    while rest != []
      invariant Parsed(rest, sofar, capacity) == Parsed(content, cpus, capacity)
      decreases |rest|
    {
      var n := TokenLength(rest);
      var v := Strtol(Chop(rest[..n]));
      if v == LONG_MIN || v == LONG_MAX {
        return None;
      }
      sofar := CpuSet(sofar, ToInt(v), capacity);
      rest := rest[n..];
    }
    return Some(sofar);
  }

  // ---------------------------------------------------------------- what the parser accepts

  /** What getdelim(',') returns, one after the other. */
  function Tokens(s: string): seq<string>
    decreases |s|
  {
    if s == [] then [] else [s[..TokenLength(s)]] + Tokens(s[TokenLength(s)..])
  }

  /** strtol saturates on the token. */
  predicate Saturates(token: string) {
    var v := Strtol(Chop(token));
    v == LONG_MIN || v == LONG_MAX
  }

  ghost predicate Overflows(content: string) {
    exists token :: token in Tokens(content) && Saturates(token)
  }

  /** The token puts CPU `c` into the set. */
  predicate Puts(token: string, c: nat, capacity: nat) {
    c < capacity && ToInt(Strtol(Chop(token))) == c
  }

  ghost predicate Names(content: string, c: nat, capacity: nat) {
    exists token :: token in Tokens(content) && Puts(token, c, capacity)
  }

  lemma TokensStep(s: string, token: string)
    requires s != []
    ensures token in Tokens(s) <==> token == s[..TokenLength(s)] || token in Tokens(s[TokenLength(s)..])
  {
  }

  /** Parsing fails exactly when a token overflows; else it adds exactly the CPUs that tokens name. */
  lemma {:induction false} ParsedIs(s: string, sofar: set<nat>, capacity: nat)
    ensures Parsed(s, sofar, capacity).None? <==> Overflows(s)
    ensures Parsed(s, sofar, capacity).Some? ==>
      forall c: nat :: c in Parsed(s, sofar, capacity).value <==> c in sofar || Names(s, c, capacity)
    decreases |s|
  {
    if s != [] {
      var n := TokenLength(s);
      var head, rest := s[..n], s[n..];
      forall token ensures token in Tokens(s) <==> token == head || token in Tokens(rest) {
        TokensStep(s, token);
      }
      assert Overflows(s) <==> Saturates(head) || Overflows(rest);
      if !Saturates(head) {
        var v := ToInt(Strtol(Chop(head)));
        ParsedIs(rest, CpuSet(sofar, v, capacity), capacity);
        forall c: nat ensures Names(s, c, capacity) <==> Puts(head, c, capacity) || Names(rest, c, capacity) {
        }
      }
    }
  }

  /** strtol with base 0 reads hexadecimal and octal too. */
  lemma BaseZeroHex()
    ensures Strtol("0x1f") == 31
  {
    var s := "0x1f";
    assert SkipSpace(s) == s;
    assert s[2..] == "1f" && "1f"[1..] == "f" && "f"[1..] == "";
    assert Digits("f", 16, 1) == 31;
    assert Digits("1f", 16, 0) == 31;
    assert Magnitude(s) == 31;
  }

  lemma LeadingSpace()
    ensures Strtol("\t +7") == 7
  {
    var s := "\t +7";
    assert s[1..] == " +7" && " +7"[1..] == "+7" && "+7"[1..] == "7" && "7"[1..] == "";
    assert SkipSpace("+7") == "+7";
    assert SkipSpace(" +7") == "+7";
    assert SkipSpace(s) == "+7";
    assert Digits("7", 10, 0) == 7;
  }

  lemma BaseZeroOctal()
    ensures Strtol("-017") == -15
  {
    var s := "-017";
    assert SkipSpace(s) == s;
    assert s[1..] == "017" && "017"[1..] == "17" && "17"[1..] == "7" && "7"[1..] == "";
    assert Digits("7", 8, 1) == 15;
    assert Digits("17", 8, 0) == 15;
    assert Magnitude("017") == 15;
  }

  /** A decimal number is read exactly, or saturates. */
  lemma DecimalValue(n: nat)
    ensures Strtol(Decimal(n)) == if n > LONG_MAX then LONG_MAX else n
  {
    var s := Decimal(n);
    DecimalDigits(n, "");
    assert s + "" == s;
    assert SkipSpace(s) == s;
    if n == 0 {
      assert s == "0" && s[1..] == "";
      assert Digits(s, 8, 0) == Digits("", 8, 0) == 0;
    }
  }

  // ---------------------------------------------------------------- printed lists

  function DigitChar(d: nat): (c: char)
    requires d < 10
    ensures Digit(c) == d && '0' <= c <= '9'
  {
    ('0' as nat + d) as char
  }

  function Decimal(n: nat): string {
    if n < 10 then [DigitChar(n)] else Decimal(n / 10) + [DigitChar(n % 10)]
  }

  /** One entry of a kernel CPU list: `lo` or `lo-hi`. */
  datatype Item = Item(lo: nat, hi: nat)

  function PrintItem(it: Item): string {
    if it.lo == it.hi then Decimal(it.lo) else Decimal(it.lo) + "-" + Decimal(it.hi)
  }

  function PrintList(items: seq<Item>): string {
    if items == [] then ""
    else if |items| == 1 then PrintItem(items[0]) + "\n"
    else PrintItem(items[0]) + "," + PrintList(items[1..])
  }

  lemma {:induction false} DecimalDigits(n: nat, t: string)
    ensures Digits(Decimal(n) + t, 10, 0) == Digits(t, 10, n)
    ensures |Decimal(n)| > 0 && '0' <= Decimal(n)[0] <= '9' && (Decimal(n)[0] == '0' <==> n == 0)
  {
    if n < 10 {
      assert (Decimal(n) + t)[1..] == t;
    } else {
      var d := [DigitChar(n % 10)];
      DecimalDigits(n / 10, d + t);
      assert Decimal(n) + t == Decimal(n / 10) + (d + t);
      assert (d + t)[1..] == t;
    }
  }

  /** strtol reads the first number of an entry, so a range counts as its lower end. */
  lemma ItemValue(it: Item)
    requires it.lo <= it.hi < 0x8000_0000
    ensures Strtol(PrintItem(it)) == it.lo
  {
    var t := if it.lo == it.hi then "" else "-" + Decimal(it.hi);
    assert PrintItem(it) == Decimal(it.lo) + t;
    DecimalDigits(it.lo, t);
    var s := PrintItem(it);
    assert Digits(t, 10, it.lo) == it.lo;
    if it.lo == 0 {
      assert Decimal(0) == "0" && s[0] == '0' && s[1..] == t;
      assert Digits(s, 8, 0) == Digits(t, 8, 0) == 0;
    }
  }

  predicate NoComma(s: string) {
    forall i | 0 <= i < |s| :: s[i] != ','
  }

  lemma {:induction false} DecimalNoComma(n: nat)
    ensures NoComma(Decimal(n))
  {
    if n >= 10 { DecimalNoComma(n / 10); }
  }

  lemma ItemNoComma(it: Item)
    ensures NoComma(PrintItem(it))
  {
    DecimalNoComma(it.lo);
    DecimalNoComma(it.hi);
  }

  lemma {:induction false} TokenOf(x: string, c: char, rest: string)
    requires NoComma(x) && (c == ',' || rest == [])
    ensures TokenLength(x + [c] + rest) == |x| + 1
    decreases |x|
  {
    var s := x + [c] + rest;
    if x != [] {
      assert s[1..] == x[1..] + [c] + rest;
      TokenOf(x[1..], c, rest);
    }
  }

  function Firsts(items: seq<Item>): set<nat> {
    if items == [] then {} else {items[0].lo} + Firsts(items[1..])
  }

  predicate Within(it: Item, c: nat) {
    it.lo <= c <= it.hi
  }

  function Range(it: Item): set<nat> {
    set c: nat | c <= it.hi && Within(it, c)
  }

  /** The CPUs the list denotes. */
  function Members(items: seq<Item>): set<nat> {
    if items == [] then {} else Range(items[0]) + Members(items[1..])
  }

  predicate Printable(items: seq<Item>, capacity: nat) {
    capacity <= 0x8000_0000 && forall it | it in items :: it.lo <= it.hi < capacity
  }

  /** The loop body on one entry. */
  lemma ParseToken(x: string, c: char, rest: string, sofar: set<nat>, capacity: nat)
    requires NoComma(x) && x != [] && (c == ',' || rest == []) && c != '\0'
    requires LONG_MIN < Strtol(x) < LONG_MAX
    ensures Parsed(x + [c] + rest, sofar, capacity)
      == Parsed(rest, CpuSet(sofar, ToInt(Strtol(x)), capacity), capacity)
  {
    var s := x + [c] + rest;
    TokenOf(x, c, rest);
    assert s[..|x| + 1] == x + [c] && s[|x| + 1..] == rest;
    assert Chop(x + [c]) == x;
  }

  lemma ParseOne(x: string, c: char, rest: string, v: nat, sofar: set<nat>, capacity: nat)
    requires NoComma(x) && x != [] && (c == ',' || rest == []) && c != '\0'
    requires Strtol(x) == v < capacity <= 0x8000_0000
    ensures Parsed(x + [c] + rest, sofar, capacity) == Parsed(rest, sofar + {v}, capacity)
  {
    ParseToken(x, c, rest, sofar, capacity);
    assert ToInt(v) == v;
  }

  /** A single number and one more character, whatever it is. */
  lemma ParseNumber(n: nat, c: char, v: nat, capacity: nat)
    requires n < LONG_MAX && c != '\0' && ToInt(n) == v < capacity
    ensures Parsed(Decimal(n) + [c], {}, capacity) == Some({v})
  {
    var x := Decimal(n);
    var none: set<nat> := {};
    DecimalValue(n);
    DecimalNoComma(n);
    DecimalDigits(n, "");
    ParseToken(x, c, "", none, capacity);
    assert x + [c] + "" == x + [c];
    assert none + {v} == {v};
  }

  /** The cast to int: a number above 32 bits counts as its low bits. */
  lemma CastWraps(k: nat, capacity: nat)
    requires k < capacity <= 0x8000_0000
    ensures Parsed(Decimal(0x1_0000_0000 + k) + "\n", {}, capacity) == Some({k})
  {
    assert ToInt(0x1_0000_0000 + k) == k;
    ParseNumber(0x1_0000_0000 + k, '\n', k, capacity);
  }

  /** A list without its newline loses the last digit of its last number. */
  lemma UnterminatedLosesDigit(n: nat, capacity: nat)
    requires 10 <= n < capacity <= 0x8000_0000
    ensures Parsed(Decimal(n), {}, capacity) == Some({n / 10})
  {
    assert ToInt(n / 10) == n / 10;
    ParseNumber(n / 10, DigitChar(n % 10), n / 10, capacity);
  }

  /** Parsing a printed list gives the lower ends of its entries. */
  lemma {:induction false} ParsePrinted(items: seq<Item>, sofar: set<nat>, capacity: nat)
    requires Printable(items, capacity)
    ensures Parsed(PrintList(items), sofar, capacity) == Some(sofar + Firsts(items))
    decreases |items|
  {
    if items == [] {
      assert sofar + Firsts(items) == sofar;
    } else {
      var it := items[0];
      var c := if |items| == 1 then '\n' else ',';
      assert it in items;
      assert PrintList(items) == PrintItem(it) + [c] + PrintList(items[1..]);
      ItemNoComma(it);
      ItemValue(it);
      DecimalDigits(it.lo, []);
      ParseOne(PrintItem(it), c, PrintList(items[1..]), it.lo, sofar, capacity);
      ParsePrinted(items[1..], sofar + {it.lo}, capacity);
      assert sofar + {it.lo} + Firsts(items[1..]) == sofar + Firsts(items);
    }
  }

  /** Entries in increasing order, as the kernel prints them. */
  predicate Increasing(items: seq<Item>) {
    forall i, j | 0 <= i < j < |items| :: items[i].hi < items[j].lo
  }

  predicate RangeFree(items: seq<Item>) {
    forall it | it in items :: it.lo == it.hi
  }

  lemma {:induction false} FirstsMember(items: seq<Item>, c: nat)
    ensures c in Firsts(items) <==> exists it | it in items :: it.lo == c
    decreases |items|
  {
    if items != [] {
      FirstsMember(items[1..], c);
      assert forall it :: it in items <==> it == items[0] || it in items[1..];
    }
  }

  lemma {:induction false} MembersMember(items: seq<Item>, c: nat)
    ensures c in Members(items) <==> exists it | it in items :: Within(it, c)
    decreases |items|
  {
    if items != [] {
      MembersMember(items[1..], c);
      assert forall it :: it in items <==> it == items[0] || it in items[1..];
    }
  }

  lemma RangeFreeFirsts(items: seq<Item>)
    requires RangeFree(items)
    ensures Firsts(items) == Members(items)
  {
    forall c: nat ensures c in Firsts(items) <==> c in Members(items) {
      FirstsMember(items, c);
      MembersMember(items, c);
    }
  }

  /** The upper end of a range is in the list but is no entry's lower end. */
  lemma RangeMissed(items: seq<Item>, i: nat)
    requires Increasing(items) && (forall it | it in items :: it.lo <= it.hi)
    requires i < |items| && items[i].lo != items[i].hi
    ensures items[i].hi in Members(items) && items[i].hi !in Firsts(items)
  {
    var c := items[i].hi;
    assert items[i] in items;
    MembersMember(items, c);
    FirstsMember(items, c);
    forall j | 0 <= j < |items| ensures items[j].lo != c {
      assert items[j] in items;
    }
  }

  /** The parsed set is the set the list denotes exactly when the list has no ranges. */
  lemma ParseExactIff(items: seq<Item>, capacity: nat)
    requires Printable(items, capacity) && Increasing(items)
    ensures Parsed(PrintList(items), {}, capacity) == Some(Members(items)) <==> RangeFree(items)
  {
    ParsePrinted(items, {}, capacity);
    assert {} + Firsts(items) == Firsts(items);
    if RangeFree(items) {
      RangeFreeFirsts(items);
    } else {
      var i :| 0 <= i < |items| && items[i].lo != items[i].hi;
      RangeMissed(items, i);
    }
  }

  lemma ParseRangeFree(items: seq<Item>, sofar: set<nat>, capacity: nat)
    requires Printable(items, capacity) && RangeFree(items)
    ensures Parsed(PrintList(items), sofar, capacity) == Some(sofar + Members(items))
  {
    ParsePrinted(items, sofar, capacity);
    RangeFreeFirsts(items);
  }

  /** A list of one range of four CPUs, and what is made of it. */
  lemma RangeLosesSiblings()
    ensures Parsed("0-3\n", {}, 64) == Some({0}) && Members([Item(0, 3)]) == {0, 1, 2, 3}
  {
    var items := [Item(0, 3)];
    assert PrintList(items) == "0-3\n";
    ParsePrinted(items, {}, 64);
    assert {} + Firsts(items) == {0};
    assert Members(items) == {0, 1, 2, 3};
  }

  // ---------------------------------------------------------------- get_preferred_cpu

  /** core_cpus_list of each CPU; None when it cannot be opened. */
  type Topology = nat -> Option<string>

  /** The CPUs sharing a core with a CPU below `n` in the mask; None when a list is unreadable or overflows. */
  function CoreCpus(t: Topology, mask: set<nat>, n: nat, capacity: nat): Option<set<nat>> {
    if n == 0 then Some({})
    else
      var before := CoreCpus(t, mask, n - 1, capacity);
      if n - 1 !in mask || before.None? then before
      else if t(n - 1).None? then None
      else Parsed(t(n - 1).value, before.value, capacity)
  }

  predicate IsPreferred(taken: set<nat>, nprocs: nat, r: int) {
    if r == -1 then forall i: nat | i < nprocs :: i in taken
    else 0 <= r < nprocs && r !in taken && forall i: nat | i < r :: i in taken
  }

  /** The list of CPU `i` cannot be opened, or contains a number that overflows. */
  ghost predicate Unreadable(t: Topology, i: nat) {
    t(i).None? || Overflows(t(i).value)
  }

  /** The list of CPU `i` names CPU `c`. */
  ghost predicate ListNames(t: Topology, i: nat, c: nat, capacity: nat) {
    t(i).Some? && Names(t(i).value, c, capacity)
  }

  ghost predicate AnyUnreadable(t: Topology, mask: set<nat>, n: nat) {
    exists i: nat :: i < n && i in mask && Unreadable(t, i)
  }

  /** A CPU of the mask below `n` has `c` in its list. */
  ghost predicate Shares(t: Topology, mask: set<nat>, n: nat, c: nat, capacity: nat) {
    exists i: nat :: i < n && i in mask && ListNames(t, i, c, capacity)
  }

  /** The set fails exactly when a list of the mask is unreadable; else it is what those lists name. */
  lemma {:induction false} CoreCpusIs(t: Topology, mask: set<nat>, n: nat, capacity: nat)
    ensures CoreCpus(t, mask, n, capacity).None? <==> AnyUnreadable(t, mask, n)
    ensures CoreCpus(t, mask, n, capacity).Some? ==>
      forall c: nat :: c in CoreCpus(t, mask, n, capacity).value <==> Shares(t, mask, n, c, capacity)
    decreases n
  {
    if n > 0 {
      CoreCpusIs(t, mask, n - 1, capacity);
      assert AnyUnreadable(t, mask, n) <==> AnyUnreadable(t, mask, n - 1) || (n - 1 in mask && Unreadable(t, n - 1));
      forall c: nat
        ensures Shares(t, mask, n, c, capacity)
          <==> Shares(t, mask, n - 1, c, capacity) || (n - 1 in mask && ListNames(t, n - 1, c, capacity))
      {
      }
      var before := CoreCpus(t, mask, n - 1, capacity);
      if n - 1 in mask && before.Some? && t(n - 1).Some? {
        ParsedIs(t(n - 1).value, before.value, capacity);
      }
    }
  }

  /**
    get_preferred_cpu. `affinity` is None when its set cannot be allocated or sched_getaffinity
    fails; `hasCoreSet` says whether the set of core siblings could be allocated.
  */
  method GetPreferredCpu(t: Topology, affinity: Option<set<nat>>, hasCoreSet: bool, nprocs: nat, capacity: nat)
    returns (r: int)
    ensures affinity.None? || !hasCoreSet ==> r == -1
    ensures affinity.Some? && AnyUnreadable(t, affinity.value, nprocs) ==> r == -1
    ensures r == -1 || 0 <= r < nprocs
    ensures r >= 0 ==>
      && !Shares(t, affinity.value, nprocs, r, capacity)
      && forall c: nat | c < r :: Shares(t, affinity.value, nprocs, c, capacity)
    ensures r == -1 && affinity.Some? && hasCoreSet && !AnyUnreadable(t, affinity.value, nprocs) ==>
      forall c: nat | c < nprocs :: Shares(t, affinity.value, nprocs, c, capacity)
    ensures affinity.Some? && hasCoreSet && CoreCpus(t, affinity.value, nprocs, capacity).Some? ==>
      IsPreferred(CoreCpus(t, affinity.value, nprocs, capacity).value, nprocs, r)
  {
    if affinity.None? || !hasCoreSet {
      return -1;
    }
    CoreCpusIs(t, affinity.value, nprocs, capacity);
    var taken := CollectCoreCpus(t, affinity.value, nprocs, capacity);
    if taken.None? {
      return -1;
    }
    r := FirstFree(taken.value, nprocs);
  }

  /** The first loop: the core siblings of every CPU in the mask. */
  method CollectCoreCpus(t: Topology, mask: set<nat>, nprocs: nat, capacity: nat) returns (r: Option<set<nat>>)
    ensures r == CoreCpus(t, mask, nprocs, capacity)
  {
    var taken: set<nat> := {};
    for i := 0 to nprocs
      invariant CoreCpus(t, mask, i, capacity) == Some(taken)
    {
      if i in mask {
        if t(i).None? {
          NoneStays(t, mask, i + 1, nprocs, capacity);
          return None;
        }
        var parsed := SetCoreCpus(t(i).value, taken, capacity);
        if parsed.None? {
          NoneStays(t, mask, i + 1, nprocs, capacity);
          return None;
        }
        taken := parsed.value;
      }
    }
    return Some(taken);
  }

  /** The second loop: the first CPU that is not taken. */
  method FirstFree(taken: set<nat>, nprocs: nat) returns (r: int)
    ensures IsPreferred(taken, nprocs, r)
  {
    for i := 0 to nprocs
      invariant forall j: nat | j < i :: j in taken
    {
      if i !in taken {
        return i;
      }
    }
    return -1;
  }

  lemma {:induction false} NoneStays(t: Topology, mask: set<nat>, i: nat, n: nat, capacity: nat)
    requires i <= n && CoreCpus(t, mask, i, capacity).None?
    ensures CoreCpus(t, mask, n, capacity).None?
    decreases n
  {
    if i < n { NoneStays(t, mask, i, n - 1, capacity); }
  }

  /** Every list of the mask is readable and is the printed, range-free list of its core. */
  predicate Describes(t: Topology, cores: nat -> seq<Item>, mask: set<nat>, nprocs: nat, capacity: nat) {
    forall i: nat | i < nprocs && i in mask ::
      && t(i) == Some(PrintList(cores(i)))
      && Printable(cores(i), capacity) && RangeFree(cores(i))
  }

  function Siblings(cores: nat -> seq<Item>, mask: set<nat>, n: nat): set<nat> {
    if n == 0 then {}
    else Siblings(cores, mask, n - 1) + (if n - 1 in mask then Members(cores(n - 1)) else {})
  }

  lemma {:induction false} CoreCpusAreSiblings(t: Topology, cores: nat -> seq<Item>, mask: set<nat>, n: nat, nprocs: nat, capacity: nat)
    requires n <= nprocs && Describes(t, cores, mask, nprocs, capacity)
    ensures CoreCpus(t, mask, n, capacity) == Some(Siblings(cores, mask, n))
    decreases n
  {
    if n > 0 {
      CoreCpusAreSiblings(t, cores, mask, n - 1, nprocs, capacity);
      var before := Siblings(cores, mask, n - 1);
      if n - 1 in mask {
        assert t(n - 1) == Some(PrintList(cores(n - 1)));
        assert Siblings(cores, mask, n) == before + Members(cores(n - 1));
        ParseRangeFree(cores(n - 1), before, capacity);
      } else {
        assert Siblings(cores, mask, n) == before + {} == before;
      }
    }
  }

  lemma {:induction false} SiblingsMember(cores: nat -> seq<Item>, mask: set<nat>, n: nat, c: nat)
    ensures c in Siblings(cores, mask, n) <==> exists i: nat | i < n && i in mask :: c in Members(cores(i))
    decreases n
  {
    if n > 0 {
      SiblingsMember(cores, mask, n - 1, c);
    }
  }

  /** No CPU of the mask shares a core with `c`. */
  ghost predicate Alone(cores: nat -> seq<Item>, mask: set<nat>, nprocs: nat, c: nat) {
    forall i: nat | i < nprocs && i in mask :: c !in Members(cores(i))
  }

  /** The preferred CPU is the least one that shares no core with the mask, -1 if there is none. */
  lemma PreferredIsLeastAlone(t: Topology, cores: nat -> seq<Item>, mask: set<nat>, nprocs: nat, capacity: nat, r: int)
    requires Describes(t, cores, mask, nprocs, capacity)
    requires CoreCpus(t, mask, nprocs, capacity).Some? ==>
      IsPreferred(CoreCpus(t, mask, nprocs, capacity).value, nprocs, r)
    ensures r == -1 || 0 <= r < nprocs
    ensures r == -1 <==> forall c: nat | c < nprocs :: !Alone(cores, mask, nprocs, c)
    ensures r >= 0 ==> Alone(cores, mask, nprocs, r) && forall c: nat | c < r :: !Alone(cores, mask, nprocs, c)
  {
    CoreCpusAreSiblings(t, cores, mask, nprocs, nprocs, capacity);
    forall c: nat ensures c in Siblings(cores, mask, nprocs) <==> !Alone(cores, mask, nprocs, c) {
      SiblingsMember(cores, mask, nprocs, c);
    }
  }

  // ---------------------------------------------------------------- init_trace

  /** trace_cpu, from the option, get_preferred_cpu and find_free_cpu. */
  function TraceCpu(option: int, preferred: int, free: int): int {
    if option >= 0 then option
    else
      var p := if preferred >= 0 then preferred else if free < 0 then 1 else 0;
      if p >= 0 then p else 0
  }

  /** What the comments promise: the preferred CPU, else a free one, else CPU 0. */
  function IntendedCpu(option: int, preferred: int, free: int): int {
    if option >= 0 then option else if preferred >= 0 then preferred else if free >= 0 then free else 0
  }

  /** The fallback stores the comparison, not the CPU: it is right only if CPU 0 is the free one. */
  lemma FallbackIff(option: int, preferred: int, free: int)
    ensures TraceCpu(option, preferred, free) == IntendedCpu(option, preferred, free)
      <==> option >= 0 || preferred >= 0 || free == 0
  {
  }

  /** Without an option and a preferred CPU, CPU 0 is traced when a free CPU was found and CPU 1 when none was. */
  lemma FallbackCpu(option: int, preferred: int, free: int)
    requires option < 0 && preferred < 0
    ensures TraceCpu(option, preferred, free) == (if free >= 0 then 0 else 1)
  {
  }
}
