/** The helpers over the C library's random numbers (src/xrandom.cpp) and the drop decision made with them. */
module Random {
  import opened Base

  // ------------------------------------------------------------------ one number from three

  /** Lines 99-104, for a library whose numbers have 15 bits. */
  function Compose(r1: bv32, r2: bv32, r3: bv32): bv32 {
    ((r1 % 2) << 30) | (r2 << 15) | r3
  }

  predicate Short(r: bv32) {
    r < 0x8000
  }

  /** No two triples of one bit and two 15-bit numbers give the same value, and none gives a negative one. */
  lemma {:induction false} ComposeInjective(r1: bv32, r2: bv32, r3: bv32, q1: bv32, q2: bv32, q3: bv32)
    requires Short(r2) && Short(r3) && Short(q2) && Short(q3)
    ensures Compose(r1, r2, r3) < 0x8000_0000
    ensures Compose(r1, r2, r3) == Compose(q1, q2, q3) <==> r1 % 2 == q1 % 2 && r2 == q2 && r3 == q3
  {
    hide Compose;
    Fields(r1, r2, r3);
    Fields(q1, q2, q3);
    if r1 % 2 == q1 % 2 && r2 == q2 && r3 == q3 {
      SameFields(r1, q1, r2, r3);
    }
  }

  lemma {:induction false} SameFields(r1: bv32, q1: bv32, r2: bv32, r3: bv32)
    requires r1 % 2 == q1 % 2
    ensures Compose(r1, r2, r3) == Compose(q1, r2, r3)
  {
  }

  lemma {:induction false} Fields(r1: bv32, r2: bv32, r3: bv32)
    requires Short(r2) && Short(r3)
    ensures Compose(r1, r2, r3) >> 30 == r1 % 2
    ensures (Compose(r1, r2, r3) >> 15) & 0x7FFF == r2
    ensures Compose(r1, r2, r3) & 0x7FFF == r3
    ensures Compose(r1, r2, r3) < 0x8000_0000
  {
  }

  /** Every non-negative 32-bit value is composed from some triple. */
  lemma {:induction false} ComposeSurjective(v: bv32) returns (r1: bv32, r2: bv32, r3: bv32)
    requires v < 0x8000_0000
    ensures r1 < 2 && Short(r2) && Short(r3) && Compose(r1, r2, r3) == v
  {
    r1, r2, r3 := v >> 30, (v >> 15) & 0x7FFF, v & 0x7FFF;
  }

  // ------------------------------------------------------------------ ranges and drops

  const RAW_LIMIT := 0x8000_0000

  /** int32_range for a raw value; the caller keeps the width of the range within an int32. */
  function Int32Range(min: int, max: int, raw: nat): (v: int)
    requires max - min < RAW_LIMIT - 1
    ensures min <= v && (v <= max || v == min)
  {
    var top := if max < min then min else max;
    raw % (top - min + 1) + min
  }

  /** Every value of the range is produced by some raw value. */
  lemma {:induction false} RangeReached(min: int, max: int, v: int) returns (raw: nat)
    requires max - min < RAW_LIMIT - 1 && min <= v <= max
    ensures raw < RAW_LIMIT && Int32Range(min, max, raw) == v
  {
    raw := v - min;
    SmallRemainder(raw, max - min + 1);
  }

  /** The raw values run through the range upwards, again and again; a range that is empty gives its minimum. */
  lemma {:induction false} RangeCycles(min: int, max: int, raw: nat)
    requires max - min < RAW_LIMIT - 1
    ensures max <= min ==> Int32Range(min, max, raw) == min
    ensures raw <= max - min ==> Int32Range(min, max, raw) == min + raw
    ensures min <= max ==> Int32Range(min, max, raw + (max - min + 1)) == Int32Range(min, max, raw)
  {
    if raw <= max - min {
      SmallRemainder(raw, max - min + 1);
    }
    if min <= max {
      NextRemainder(raw, max - min + 1);
    }
  }

  lemma {:induction false} NextRemainder(x: nat, n: nat)
    requires n > 0
    ensures (x + n) % n == x % n
  {
    var p, q := (x + n) / n, x / n + 1;
    assert p * n + (x + n) % n == q * n + x % n;
    if p < q {
      Ahead(p, q, n);
    } else if p > q {
      Ahead(q, p, n);
    }
  }

  lemma {:induction false} Ahead(p: nat, q: nat, n: nat)
    requires p < q
    ensures p * n + n <= q * n
  {
    assert (q - p - 1) * n >= 0;
    assert q * n == p * n + n + (q - p - 1) * n;
  }

  lemma {:induction false} SmallRemainder(x: nat, n: nat)
    requires x < n
    ensures x % n == x
  {
  }

  /** src/udp_proxy.cpp:100. */
  predicate Drops(setting: int, raw: nat) {
    setting > 0 && Int32Range(1, 10000, raw) <= setting
  }

  function DropSet(setting: int, n: nat): set<nat> {
    set raw: nat | raw < n && Drops(setting, raw)
  }

  function Least(a: int, b: int): int {
    if a < b then a else b
  }

  /** The part of a setting that matters: below 0 nothing is dropped, above 10000 everything. */
  function Effective(setting: int): nat {
    if setting < 0 then 0 else Least(setting, 10000)
  }

  /** How many of the first n raw values cause a drop, whatever number the setting is. */
  lemma {:induction false} DropCount(setting: int, n: nat)
    ensures |DropSet(setting, n)| == n / 10000 * Effective(setting) + Least(n % 10000, Effective(setting))
  {
    if n == 0 {
      assert DropSet(setting, n) == {};
    } else {
      var m := n - 1;
      DropCount(setting, m);
      assert DropSet(setting, n) == if Drops(setting, m) then DropSet(setting, m) + {m} else DropSet(setting, m);
      assert m !in DropSet(setting, m);
      DropsIff(setting, m);
      NextQuotient(m, Effective(setting));
      hide Effective, Drops, DropSet;
    }
  }

  lemma {:induction false} DropsIff(setting: int, raw: nat)
    ensures Drops(setting, raw) <==> raw % 10000 < Effective(setting)
    ensures Effective(setting) <= 10000
  {
  }

  lemma {:induction false} NextQuotient(m: nat, setting: nat)
    requires setting <= 10000
    ensures (m + 1) / 10000 * setting + Least((m + 1) % 10000, setting)
            == m / 10000 * setting + Least(m % 10000, setting) + if m % 10000 < setting then 1 else 0
  {
    var q, r := m / 10000, m % 10000;
    if r == 9999 {
      assert (m + 1) / 10000 == q + 1 && (m + 1) % 10000 == 0;
      assert (q + 1) * setting == q * setting + setting;
    } else {
      assert (m + 1) / 10000 == q && (m + 1) % 10000 == r + 1;
    }
  }

  /** Over all raw values: exactly this many drop, which is never fewer than the setting promises. */
  lemma {:induction false} DropRate(setting: int)
    ensures |DropSet(setting, RAW_LIMIT)| == 214748 * Effective(setting) + Least(3648, Effective(setting))
    ensures 0 <= 10000 * |DropSet(setting, RAW_LIMIT)| - Effective(setting) * RAW_LIMIT <= 3648 * 6352
  {
    DropCount(setting, RAW_LIMIT);
    assert RAW_LIMIT / 10000 == 214748 && RAW_LIMIT % 10000 == 3648;
  }

  // ------------------------------------------------------------------ unique_assign

  function ToRange(min: int, max: int, raws: seq<nat>): seq<int>
    requires max - min < RAW_LIMIT - 1
  {
    seq(|raws|, i requires 0 <= i < |raws| => Int32Range(min, max, raws[i]))
  }

  /** The first occurrence of every value, in order. */
  function Firsts(s: seq<int>): seq<int>
    decreases |s|
  {
    if s == [] then []
    else if Last(s) in Firsts(Front(s)) then Firsts(Front(s))
    else Firsts(Front(s)) + [Last(s)]
  }

  predicate Distinct(s: seq<int>) {
    forall i, j | 0 <= i < j < |s| :: s[i] != s[j]
  }

  predicate InRange(s: seq<int>, min: int, max: int) {
    forall i | 0 <= i < |s| :: min <= s[i] <= max
  }

  /** The first occurrences are distinct and are exactly the values that occur. */
  lemma {:induction false} FirstsIs(s: seq<int>)
    ensures Distinct(Firsts(s)) && forall v :: v in Firsts(s) <==> v in s
    decreases |s|
  {
    if s != [] {
      FirstsIs(Front(s));
      assert s == Front(s) + [Last(s)];
    }
  }

  /** There are as many first occurrences as different values. */
  lemma {:induction false} FirstsCount(s: seq<int>)
    ensures |Firsts(s)| == |Values(s)|
  {
    FirstsIs(s);
    DistinctSize(Firsts(s));
    var firsts := Firsts(s);
    forall v ensures v in Values(firsts) <==> v in Values(s) {
      assert v in firsts <==> v in s;
    }
    assert Values(firsts) == Values(s);
  }

  lemma {:induction false} FirstsGrow(s: seq<int>, n: nat)
    requires n <= |s|
    ensures Firsts(s[..n]) <= Firsts(s)
    decreases |s|
  {
    if n < |s| {
      FirstsGrow(Front(s), n);
      assert Front(s)[..n] == s[..n];
    } else {
      assert s[..n] == s;
    }
  }

  lemma {:induction false} FirstsNext(s: seq<int>, n: nat)
    requires n < |s|
    ensures Firsts(s[..n + 1]) == if s[n] in Firsts(s[..n]) then Firsts(s[..n]) else Firsts(s[..n]) + [s[n]]
  {
    assert Front(s[..n + 1]) == s[..n];
  }

  datatype Outcome = Rejected | Done | OutOfDraws

  /**
   unique_assign, with the raw values its draws will give; it goes on drawing where the model runs out of them, and it
   ends exactly when the draws have given enough different values. What it fills in are the first occurrences among the
   draws, distinct and in range; asked for as many as the range has, it fills in a permutation of the range.
   */
  method UniqueAssign(buf: array<int>, size: int, min: int, max: int, raws: seq<nat>) returns (outcome: Outcome)
    requires size <= buf.Length && max - min < RAW_LIMIT - 1
    modifies buf
    ensures outcome == Rejected <==> min > max || size > max - min + 1
    ensures outcome == Rejected ==> buf[..] == old(buf[..])
    ensures outcome == Done ==>
              && (size > 0 ==> size <= |Firsts(ToRange(min, max, raws))| && buf[..size] == Firsts(ToRange(min, max, raws))[..size])
              && (size <= 0 ==> buf[..] == old(buf[..]))
    ensures outcome == OutOfDraws <==> min <= max && |Values(ToRange(min, max, raws))| < size <= max - min + 1
    ensures outcome == Done && size > 0 ==> Distinct(buf[..size]) && InRange(buf[..size], min, max)
    ensures outcome == Done && size == max - min + 1 ==> Permutes(buf[..size], min, max)
    ensures forall k | 0 <= k < buf.Length && size <= k :: buf[k] == old(buf[k])
  {
    if min > max || size > max - min + 1 {
      return Rejected;
    }
    ghost var all := ToRange(min, max, raws);
    var drawn: nat := 0;
    var ok := true;
    for i := 0 to if size < 0 then 0 else size
      invariant drawn <= |raws| && buf[..i] == Firsts(all[..drawn])
      invariant size <= 0 ==> buf[..] == old(buf[..])
      invariant forall k | 0 <= k < buf.Length && size <= k :: buf[k] == old(buf[k])
    {
      ok, drawn := DrawNew(buf, i, min, max, raws, drawn);
      if !ok {
        assert all[..drawn] == all;
        FirstsCount(all);
        return OutOfDraws;
      }
    }
    FirstsGrow(all, drawn);
    FirstsCount(all);
    if size > 0 {
      AssignedUnique(min, max, raws, size);
      assert buf[..size] == Firsts(all)[..size];
      if size == max - min + 1 {
        FullSizePermutes(buf[..size], min, max);
      }
    }
    return Done;
  }

  /** Lines 125-141: draw until the value is new. */
  method DrawNew(buf: array<int>, i: nat, min: int, max: int, raws: seq<nat>, start: nat) returns (ok: bool, drawn: nat)
    requires i < buf.Length && max - min < RAW_LIMIT - 1 && start <= |raws|
    requires buf[..i] == Firsts(ToRange(min, max, raws)[..start])
    modifies buf
    ensures drawn <= |raws| && (!ok ==> drawn == |raws|)
    ensures buf[..if ok then i + 1 else i] == Firsts(ToRange(min, max, raws)[..drawn])
    ensures forall k | 0 <= k < buf.Length && k != i :: buf[k] == old(buf[k])
  {
    ghost var all := ToRange(min, max, raws);
    ghost var taken := buf[..i];
    hide Firsts;
    drawn, ok := start, false;
    while !ok && drawn < |raws|
      invariant drawn <= |raws| && buf[..i] == taken
      invariant Firsts(all[..drawn]) == if ok then taken + [buf[i]] else taken
      invariant forall k | 0 <= k < buf.Length && k != i :: buf[k] == old(buf[k])
      decreases |raws| - drawn
    {
      FirstsNext(all, drawn);
      buf[i] := Int32Range(min, max, raws[drawn]);
      assert buf[..i] == taken && buf[i] == all[drawn];
      ok := IsNew(buf, i);
      drawn := drawn + 1;
    }
    assert ok ==> buf[..i + 1] == taken + [buf[i]];
  }

  /** Lines 128-136: whether the value is not among those before it. */
  method IsNew(buf: array<int>, i: nat) returns (isNew: bool)
    requires i < buf.Length
    ensures isNew <==> buf[i] !in buf[..i]
  {
    for j := 0 to i
      invariant forall k | 0 <= k < j :: buf[k] != buf[i]
    {
      if buf[i] == buf[j] {
        assert buf[..i][j] == buf[i];
        return false;
      }
    }
    return true;
  }

  /** What UniqueAssign fills the buffer with is distinct and in range. */
  lemma {:induction false} AssignedUnique(min: int, max: int, raws: seq<nat>, size: nat)
    requires min <= max && max - min < RAW_LIMIT - 1 && size <= |Firsts(ToRange(min, max, raws))|
    ensures Distinct(Firsts(ToRange(min, max, raws))[..size]) && InRange(Firsts(ToRange(min, max, raws))[..size], min, max)
  {
    var s := ToRange(min, max, raws);
    FirstsIs(s);
    forall i | 0 <= i < size ensures min <= Firsts(s)[i] <= max {
      assert Firsts(s)[i] in s;
    }
  }

  predicate Within(v: int, min: int, max: int) {
    min <= v <= max
  }

  function RangeSet(min: int, max: int): set<int> {
    set v: int | min <= v <= max && Within(v, min, max)
  }

  lemma {:induction false} RangeSize(min: int, max: int)
    requires min <= max + 1
    ensures |RangeSet(min, max)| == max - min + 1
    decreases max - min + 1
  {
    if min <= max {
      RangeSize(min, max - 1);
      NextRange(min, max);
      assert max !in RangeSet(min, max - 1);
      hide RangeSet;
    } else {
      assert RangeSet(min, max) == {};
    }
  }

  function Values(s: seq<int>): set<int> {
    set v | v in s
  }

  lemma {:induction false} NextRange(min: int, max: int)
    requires min <= max
    ensures RangeSet(min, max) == RangeSet(min, max - 1) + {max}
  {
    forall v ensures v in RangeSet(min, max) <==> v in RangeSet(min, max - 1) || v == max {
      assert Within(v, min, max) <==> Within(v, min, max - 1) || v == max;
    }
  }

  lemma {:induction false} DistinctSize(s: seq<int>)
    requires Distinct(s)
    ensures |Values(s)| == |s|
    decreases |s|
  {
    if s != [] {
      DistinctSize(Front(s));
      assert s == Front(s) + [Last(s)];
      assert Values(s) == Values(Front(s)) + {Last(s)};
    } else {
      assert Values(s) == {};
    }
  }

  /** Inside the retry loop some raw value always ends it: fewer values are taken than the range has. */
  lemma {:induction false} FreeValueExists(taken: seq<int>, min: int, max: int) returns (raw: nat)
    requires max - min < RAW_LIMIT - 1 && |taken| < max - min + 1
    ensures raw < RAW_LIMIT && Int32Range(min, max, raw) !in taken && min <= Int32Range(min, max, raw) <= max
  {
    RangeSize(min, max);
    ValuesSize(taken);
    if RangeSet(min, max) <= Values(taken) {
      SubsetSize(RangeSet(min, max), Values(taken));
      assert false;
    }
    var v :| v in RangeSet(min, max) && v !in Values(taken);
    raw := RangeReached(min, max, v);
  }

  lemma {:induction false} OneMore(raws: seq<nat>, min: int, max: int) returns (raw: nat)
    requires max - min < RAW_LIMIT - 1 && |Values(ToRange(min, max, raws))| < max - min + 1
    ensures raw < RAW_LIMIT && |Values(ToRange(min, max, raws + [raw]))| == |Values(ToRange(min, max, raws))| + 1
  {
    var drawn := ToRange(min, max, raws);
    FirstsIs(drawn);
    FirstsCount(drawn);
    raw := FreeValueExists(Firsts(drawn), min, max);
    var v := Int32Range(min, max, raw);
    assert ToRange(min, max, raws + [raw]) == drawn + [v];
    hide Int32Range, ToRange, Firsts;
    assert Values(drawn + [v]) == Values(drawn) + {v};
  }

  /** Whatever was drawn so far, some further draws end the call: it can always still finish. */
  lemma {:induction false} CanStillFinish(raws: seq<nat>, size: int, min: int, max: int) returns (more: seq<nat>)
    requires max - min < RAW_LIMIT - 1 && size <= max - min + 1
    ensures forall raw <- more :: raw < RAW_LIMIT
    ensures size <= |Values(ToRange(min, max, raws + more))|
    decreases size - |Values(ToRange(min, max, raws))|
  {
    hide Values, ToRange;
    more := [];
    if |Values(ToRange(min, max, raws))| < size {
      var raw := OneMore(raws, min, max);
      var rest := CanStillFinish(raws + [raw], size, min, max);
      more := [raw] + rest;
      assert raws + [raw] + rest == raws + more;
    } else {
      assert raws + more == raws;
    }
  }

  lemma {:induction false} ValuesSize(s: seq<int>)
    ensures |Values(s)| <= |s|
    decreases |s|
  {
    if s != [] {
      ValuesSize(Front(s));
      assert s == Front(s) + [Last(s)];
      assert Values(s) == Values(Front(s)) + {Last(s)};
    } else {
      assert Values(s) == {};
    }
  }

  lemma {:induction false} SubsetSize<T>(a: set<T>, b: set<T>)
    requires a <= b
    ensures |a| <= |b| && (|a| == |b| ==> a == b)
    decreases a
  {
    if a != {} {
      var v :| v in a;
      SubsetSize(a - {v}, b - {v});
    }
  }

  /** Every value of the range, exactly once. */
  predicate Permutes(s: seq<int>, min: int, max: int) {
    && (forall v <- s :: min <= v <= max)
    && (forall v | min <= v <= max :: multiset(s)[v] == 1)
  }

  /** Distinct values of the range, as many as it has, are a permutation of it. */
  lemma {:induction false} FullSizePermutes(s: seq<int>, min: int, max: int)
    requires min <= max && Distinct(s) && InRange(s, min, max) && |s| == max - min + 1
    ensures Permutes(s, min, max)
  {
    DistinctSize(s);
    RangeSize(min, max);
    assert Values(s) <= RangeSet(min, max);
    SubsetSize(Values(s), RangeSet(min, max));
    forall v | min <= v <= max ensures multiset(s)[v] == 1 {
      assert v in RangeSet(min, max);
      assert v in Values(s);
      OnlyOnce(s, v);
    }
  }

  lemma {:induction false} OnlyOnce(s: seq<int>, v: int)
    requires Distinct(s)
    ensures multiset(s)[v] == if v in s then 1 else 0
    decreases |s|
  {
    if s != [] {
      OnlyOnce(Front(s), v);
      assert s == Front(s) + [Last(s)];
    }
  }
}
