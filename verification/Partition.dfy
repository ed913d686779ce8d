/** Partition layout: byte shards, round-robin bags and padded part names
    (data/input/structure/plant/partition_layout.py, `run_partition_ingress` of ray_io_utils.py). */
module Partition {
  import opened Numerals
  import opened Sorting
  import opened Text
  import opened Wrappers

  // --- part names ------------------------------------------------------------------------------------

  function DecChar(d: nat): char
    requires d < 10
  {
    '0' + d as char
  }

  function DecText(ds: seq<nat>): (t: string)
    requires AreDigits(ds, 10)
    ensures |t| == |ds| && forall i :: 0 <= i < |t| ==> t[i] == DecChar(ds[i])
  {
    seq(|ds|, i requires 0 <= i < |ds| => DecChar(ds[i]))
  }

  /** Decimal digits, padded with zeros to a width of at least five. */
  function Padded(n: nat): (ds: seq<nat>)
    ensures AreDigits(ds, 10)
  {
    var ds := Digits(n, 10);
    if |ds| < 5 then Zeros(5 - |ds|) + ds else ds
  }

  /** `f'part-{index:05d}'`, for an index that is not negative. */
  function PartName(n: nat): string {
    "part-" + DecText(Padded(n))
  }

  lemma PaddedValue(n: nat)
    ensures Value(Padded(n), 10) == n
  {
    var ds := Digits(n, 10);
    ValueOfDigits(n, 10);
    if |ds| < 5 {
      ValueIgnoresLeadingZeros(5 - |ds|, ds, 10);
    }
  }

  function Pow10(k: nat): (p: nat)
    ensures p > 0
  {
    if k == 0 then 1 else 10 * Pow10(k - 1)
  }

  lemma {:induction false} DigitCount(n: nat, k: nat)
    ensures |Digits(n, 10)| <= k <==> n < Pow10(k)
  {
    if n != 0 && k != 0 {
      DigitCount(n / 10, k - 1);
    }
  }

  /** Five digits hold exactly the indices below 100000. */
  lemma PaddedWidth(n: nat)
    ensures |Padded(n)| == 5 <==> n < 100000
  {
    DigitCount(n, 5);
    assert Pow10(3) == 1000;
    assert Pow10(5) == 100000;
  }

  lemma {:induction false} ValueInjective(a: seq<nat>, b: seq<nat>)
    requires |a| == |b| && AreDigits(a, 10) && AreDigits(b, 10)
    requires Value(a, 10) == Value(b, 10)
    ensures a == b
  {
    if a != [] {
      ValueInjective(a[..|a| - 1], b[..|b| - 1]);
      assert a == a[..|a| - 1] + [a[|a| - 1]] && b == b[..|b| - 1] + [b[|b| - 1]];
    }
  }

  lemma {:induction false} LexSnoc(a: string, b: string, x: char, y: char)
    requires |a| == |b|
    ensures LexLess(a, b) ==> LexLess(a + [x], b + [y])
    ensures a == b && x < y ==> LexLess(a + [x], b + [y])
  {
    if a != [] {
      assert (a + [x])[1..] == a[1..] + [x] && (b + [y])[1..] == b[1..] + [y];
      LexSnoc(a[1..], b[1..], x, y);
    }
  }

  /** At equal width the string order is the numeric order. */
  lemma {:induction false} LexIsNumeric(a: seq<nat>, b: seq<nat>)
    requires |a| == |b| && AreDigits(a, 10) && AreDigits(b, 10)
    requires Value(a, 10) < Value(b, 10)
    ensures LexLess(DecText(a), DecText(b))
  {
    var a', x := a[..|a| - 1], a[|a| - 1];
    var b', y := b[..|b| - 1], b[|b| - 1];
    assert DecText(a) == DecText(a') + [DecChar(x)] && DecText(b) == DecText(b') + [DecChar(y)];
    LexSnoc(DecText(a'), DecText(b'), DecChar(x), DecChar(y));
    if Value(a', 10) < Value(b', 10) {
      LexIsNumeric(a', b');
    } else {
      ValueInjective(a', b');
    }
  }

  lemma NamesAscend(i: nat, j: nat)
    requires i < j < 100000
    ensures LexLess(PartName(i), PartName(j))
  {
    PaddedValue(i);
    PaddedValue(j);
    PaddedWidth(i);
    PaddedWidth(j);
    LexIsNumeric(Padded(i), Padded(j));
    LexSamePrefix("part-", DecText(Padded(i)), DecText(Padded(j)));
  }

  lemma NameDetermines(i: nat, j: nat)
    requires PartName(i) == PartName(j)
    ensures i == j
  {
    PaddedValue(i);
    PaddedValue(j);
    AfterPrefix("part-", DecText(Padded(i)));
    AfterPrefix("part-", DecText(Padded(j)));
    DecTextInjective(Padded(i), Padded(j));
  }

  lemma AfterPrefix(p: string, s: string)
    ensures (p + s)[|p|..] == s
  {
  }

  lemma DecTextInjective(a: seq<nat>, b: seq<nat>)
    requires AreDigits(a, 10) && AreDigits(b, 10) && DecText(a) == DecText(b)
    ensures a == b
  {
    assert |a| == |DecText(a)| == |b|;
    forall k | 0 <= k < |a| ensures a[k] == b[k] {
      assert DecText(a)[k] == DecText(b)[k];
    }
  }

  /** Names stop sorting numerically at the first six-digit index. */
  lemma SixDigitsSortEarly()
    ensures LexLess(PartName(100000), PartName(10001))
  {
    var a, b := Padded(100000), Padded(10001);
    FirstSixDigits();
    DecTextConcat([1, 0, 0, 0], [0, 0]);
    DecTextConcat([1, 0, 0, 0], [1]);
    assert a == [1, 0, 0, 0] + [0, 0] && b == [1, 0, 0, 0] + [1];
    FewDigits();
    LexSamePrefix("1000", "00", "1");
    LexSamePrefix("part-", DecText(a), DecText(b));
  }

  lemma DecTextConcat(x: seq<nat>, y: seq<nat>)
    requires AreDigits(x, 10) && AreDigits(y, 10)
    ensures DecText(x + y) == DecText(x) + DecText(y)
  {
  }

  lemma FewDigits()
    ensures DecText([1, 0, 0, 0]) == "1000" && DecText([0, 0]) == "00" && DecText([1]) == "1" && LexLess("00", "1")
  {
  }

  lemma DigitsSnoc(n: nat, d: nat)
    requires d < 10 && n > 0
    ensures Digits(n * 10 + d, 10) == Digits(n, 10) + [d]
  {
    assert (n * 10 + d) / 10 == n && (n * 10 + d) % 10 == d;
  }

  lemma Thousand()
    ensures Digits(1000, 10) == [1, 0, 0, 0]
  {
    assert Digits(1, 10) == [1];
    DigitsSnoc(1, 0);
    DigitsSnoc(10, 0);
    DigitsSnoc(100, 0);
  }

  lemma FirstSixDigits()
    ensures Padded(100000) == [1, 0, 0, 0, 0, 0] && Padded(10001) == [1, 0, 0, 0, 1]
  {
    var a, b := 1000, 10000;
    Thousand();
    DigitsSnoc(a, 0);
    DigitsSnoc(a, 1);
    DigitsSnoc(b, 0);
    assert a * 10 + 0 == b && a * 10 + 1 == 10001 && b * 10 + 0 == 100000;
    assert Digits(10001, 10) == [1, 0, 0, 0, 1];
  }

  function Names(n: nat): (ns: seq<string>)
    ensures |ns| == n && forall i :: 0 <= i < n ==> ns[i] == PartName(i)
  {
    seq(n, i requires 0 <= i => PartName(i))
  }

  /** The numeric order of `n` parts is the sorted order of their names exactly up to 100000 parts. */
  lemma NamesSortedIff(n: nat)
    ensures SortedBy(Names(n), LexLeq) <==> n <= 100000
  {
    if n <= 100000 {
      forall i, j | 0 <= i < j < n ensures LexLeq(Names(n)[i], Names(n)[j]) {
        NamesAscend(i, j);
      }
    } else {
      SixDigitsSortEarly();
      LexTrichotomy(PartName(10001), PartName(100000));
      assert !LexLeq(Names(n)[10001], Names(n)[100000]);
    }
  }

  // --- byte shards -----------------------------------------------------------------------------------

  type Bytes = seq<Byte>

  function Min(a: int, b: int): int {
    if a < b then a else b
  }

  /** Where shard `i` begins. */
  function Start(len: nat, n: nat, i: nat): nat
    requires n > 0
  {
    i * (len / n) + Min(i, len % n)
  }

  function Concat(shards: seq<Bytes>): Bytes {
    if shards == [] then [] else Concat(shards[..|shards| - 1]) + shards[|shards| - 1]
  }

  /** Shard `i` of `n`, cut at the two starts. */
  ghost predicate IsShard(shard: Bytes, data: Bytes, n: nat, i: nat)
    requires n > 0
  {
    && Start(|data|, n, i) <= Start(|data|, n, i + 1) <= |data|
    && shard == data[Start(|data|, n, i)..Start(|data|, n, i + 1)]
  }

  ghost predicate IsSplit(shards: seq<Bytes>, data: Bytes, n: nat)
    requires n > 0
  {
    |shards| == n && forall i :: 0 <= i < n ==> IsShard(shards[i], data, n, i)
  }

  lemma StartStep(len: nat, n: nat, i: nat)
    requires n > 0 && i < n
    ensures Start(len, n, i + 1) == Start(len, n, i) + len / n + (if i < len % n then 1 else 0)
    ensures Start(len, n, 0) == 0 && Start(len, n, n) == len
  {
    assert (i + 1) * (len / n) == i * (len / n) + len / n;
    assert n * (len / n) + len % n == len;
  }

  lemma EmptyStarts(n: nat)
    requires n > 0
    ensures forall i: nat :: Start(0, n, i) == 0
  {
    assert 0 / n == 0 && 0 % n == 0;
    forall i: nat ensures Start(0, n, i) == 0 {
      assert i * 0 == 0;
    }
  }

  lemma WholeIsSplit(data: Bytes)
    ensures IsSplit([data], data, 1)
  {
    StartStep(|data|, 1, 0);
    assert data[0..|data|] == data;
  }

  lemma EmptyIsSplit(n: nat, shards: seq<Bytes>)
    requires n > 0 && |shards| == n && forall i :: 0 <= i < n ==> shards[i] == []
    ensures IsSplit(shards, [], n)
  {
    EmptyStarts(n);
  }

  lemma NextShard(data: Bytes, n: nat, i: nat, offset: nat, size: nat)
    requires i < n && offset == Start(|data|, n, i)
    requires size == |data| / n + (if i < |data| % n then 1 else 0)
    ensures offset + size <= |data| && offset + size == Start(|data|, n, i + 1)
    ensures IsShard(data[offset..offset + size], data, n, i)
  {
    StartStep(|data|, n, i);
    StartBound(|data|, n, i + 1);
  }

  method SplitFileBytes(data: Bytes, n: int) returns (r: Result<seq<Bytes>>)
    ensures r.Ok? <==> n >= 1
    ensures r.Ok? ==> IsSplit(r.value, data, n)
  {
    if n < 1 {
      return Err("num_partitions must be >= 1");
    }
    if n == 1 {
      WholeIsSplit(data);
      return Ok([data]);
    }
    if |data| == 0 {
      var none: Bytes := [];
      EmptyIsSplit(n, seq(n, _ => none));
      return Ok(seq(n, _ => none));
    }
    var base, rem := |data| / n, |data| % n;
    var shards: seq<Bytes> := [];
    var offset := 0;
    StartStep(|data|, n, 0);
    for i := 0 to n
      invariant |shards| == i && offset == Start(|data|, n, i) && offset <= |data|
      invariant forall k :: 0 <= k < i ==> IsShard(shards[k], data, n, k)
    {
      var size := base + (if i < rem then 1 else 0);
      NextShard(data, n, i, offset, size);
      shards := shards + [data[offset..offset + size]];
      offset := offset + size;
    }
    return Ok(shards);
  }

  lemma StartBound(len: nat, n: nat, i: nat)
    requires n > 0 && i <= n
    ensures Start(len, n, i) <= len
    decreases n - i
  {
    if i < n {
      StartStep(len, n, i);
      StartBound(len, n, i + 1);
    } else {
      StartStep(len, n, n - 1);
    }
  }

  lemma {:induction false} ConcatPrefix(shards: seq<Bytes>, data: Bytes, n: nat, k: nat)
    requires n > 0 && k <= n && IsSplit(shards, data, n)
    ensures Start(|data|, n, k) <= |data| && Concat(shards[..k]) == data[..Start(|data|, n, k)]
  {
    StartBound(|data|, n, k);
    if k == 0 {
      StartStep(|data|, n, 0);
    } else {
      ConcatPrefix(shards, data, n, k - 1);
      assert shards[..k][..k - 1] == shards[..k - 1];
      assert shards[..k][k - 1] == shards[k - 1];
      assert IsShard(shards[k - 1], data, n, k - 1);
    }
  }

  /** The shards join to the original, and their sizes differ by at most one. */
  lemma SplitIsLossless(shards: seq<Bytes>, data: Bytes, n: nat)
    requires n > 0 && IsSplit(shards, data, n)
    ensures Concat(shards) == data
    ensures forall i, j :: 0 <= i < n && 0 <= j < n ==> |shards[i]| <= |shards[j]| + 1
  {
    ConcatPrefix(shards, data, n, n);
    StartStep(|data|, n, n - 1);
    assert shards[..n] == shards && data[..|data|] == data;
    forall i | 0 <= i < n
      ensures |shards[i]| == |data| / n + (if i < |data| % n then 1 else 0)
    {
      StartStep(|data|, n, i);
      assert IsShard(shards[i], data, n, i);
    }
  }
}
