/** Positional numerals, most significant digit first, in any base. */
module Numerals {

  /** Every element is a digit of the base. */
  ghost predicate AreDigits(ds: seq<nat>, base: nat) {
    forall i :: 0 <= i < |ds| ==> ds[i] < base
  }

  /** The number a digit sequence denotes (Python's `int.from_bytes(..., 'big')` when the base is 256). */
  function Value(ds: seq<nat>, base: nat): nat {
    if ds == [] then 0 else Value(ds[..|ds| - 1], base) * base + ds[|ds| - 1]
  }

  /** The shortest digit sequence denoting `n`; zero is the empty sequence. */
  function Digits(n: nat, base: nat): (ds: seq<nat>)
    requires base >= 2
    ensures AreDigits(ds, base)
    ensures ds != [] ==> ds[0] != 0
    ensures n > 0 ==> ds != []
  {
    if n == 0 then []
    else
      DivSmaller(n, base);
      Digits(n / base, base) + [n % base]
  }

  function Zeros(k: nat): (z: seq<nat>)
    ensures |z| == k && forall i :: 0 <= i < k ==> z[i] == 0
  {
    seq(k, _ => 0)
  }

  /** How many zero digits a sequence starts with. */
  function LeadingZeros(ds: seq<nat>): (k: nat)
    ensures k <= |ds|
    ensures forall i :: 0 <= i < k ==> ds[i] == 0
    ensures k < |ds| ==> ds[k] != 0
  {
    if ds != [] && ds[0] == 0 then 1 + LeadingZeros(ds[1..]) else 0
  }

  /** Rewrites a number from base `b` to base `c`, keeping the count of leading zeros. */
  function Transcode(ds: seq<nat>, b: nat, c: nat): (r: seq<nat>)
    requires c >= 2
    ensures AreDigits(r, c)
  {
    Zeros(LeadingZeros(ds)) + Digits(Value(ds, b), c)
  }

  lemma DivSmaller(n: nat, base: nat)
    requires n > 0 && base >= 2
    ensures 0 <= n / base < n
  {
    var q := n / base;
    assert n == q * base + n % base;
    MulMonotone(2, base, q);
  }

  lemma MulMonotone(x: int, y: int, z: nat)
    requires x <= y
    ensures x * z <= y * z
  {
  }

  lemma DivModUnique(q: nat, r: nat, base: nat)
    requires r < base
    ensures (q * base + r) / base == q && (q * base + r) % base == r
  {
    var n := q * base + r;
    var d, m := n / base, n % base;
    assert n == d * base + m;
    assert (q + 1) * base == q * base + base && (d + 1) * base == d * base + base;
    if d > q {
      MulMonotone(q + 1, d, base);
    } else if d < q {
      MulMonotone(d + 1, q, base);
    }
  }

  lemma ValueSnoc(front: seq<nat>, last: nat, base: nat)
    ensures Value(front + [last], base) == Value(front, base) * base + last
  {
    assert (front + [last])[..|front|] == front;
  }

  lemma DivMod(n: nat, base: nat)
    requires base > 0
    ensures n / base * base + n % base == n
  {
  }

  lemma {:induction false} ValueOfDigits(n: nat, base: nat)
    requires base >= 2
    ensures Value(Digits(n, base), base) == n
  {
    if n != 0 {
      DivSmaller(n, base);
      ValueOfDigits(n / base, base);
      ValueSnoc(Digits(n / base, base), n % base, base);
      DivMod(n, base);
    }
  }

  lemma {:induction false} ValuePositive(ds: seq<nat>, base: nat)
    requires base >= 2 && ds != [] && ds[0] != 0
    ensures Value(ds, base) > 0
  {
    if |ds| > 1 {
      ValuePositive(ds[..|ds| - 1], base);
    }
  }

  lemma {:induction false} DigitsOfValue(ds: seq<nat>, base: nat)
    requires base >= 2 && AreDigits(ds, base)
    requires ds != [] ==> ds[0] != 0
    ensures Digits(Value(ds, base), base) == ds
  {
    if ds != [] {
      var front, last := ds[..|ds| - 1], ds[|ds| - 1];
      DigitsOfValue(front, base);
      ValuePositive(ds, base);
      DivModUnique(Value(front, base), last, base);
      assert ds == front + [last];
    }
  }

  lemma {:induction false} ValueIgnoresLeadingZeros(k: nat, ds: seq<nat>, base: nat)
    ensures Value(Zeros(k) + ds, base) == Value(ds, base)
  {
    var whole := Zeros(k) + ds;
    if ds != [] {
      assert whole[..|whole| - 1] == Zeros(k) + ds[..|ds| - 1];
      ValueIgnoresLeadingZeros(k, ds[..|ds| - 1], base);
    } else if k != 0 {
      assert whole[..|whole| - 1] == Zeros(k - 1) + ds;
      ValueIgnoresLeadingZeros(k - 1, ds, base);
    }
  }

  lemma {:induction false} LeadingZerosOf(k: nat, ds: seq<nat>)
    requires ds != [] ==> ds[0] != 0
    ensures LeadingZeros(Zeros(k) + ds) == k
  {
    if k != 0 {
      assert (Zeros(k) + ds)[1..] == Zeros(k - 1) + ds;
      LeadingZerosOf(k - 1, ds);
    }
  }

  /** Transcoding between two bases loses nothing, leading zeros included. */
  lemma TranscodeRoundTrip(ds: seq<nat>, b: nat, c: nat)
    requires b >= 2 && c >= 2 && AreDigits(ds, b)
    ensures Transcode(Transcode(ds, b, c), c, b) == ds
  {
    var k := LeadingZeros(ds);
    var body := ds[k..];
    assert ds == Zeros(k) + body;
    ValueIgnoresLeadingZeros(k, body, b);
    var n := Value(ds, b);
    ValueIgnoresLeadingZeros(k, Digits(n, c), c);
    ValueOfDigits(n, c);
    LeadingZerosOf(k, Digits(n, c));
    DigitsOfValue(body, b);
  }

  // --- Python's fixed-width big-endian bytes ---------------------------------------------------------

  /** Python's `int.bit_length`. */
  function BitLength(n: nat): nat {
    if n == 0 then 0 else 1 + BitLength(n / 2)
  }

  /** Python's `n.to_bytes(len, 'big')`, for a length that holds `n`. */
  function ToBytes(n: nat, len: nat): (bs: seq<nat>)
    ensures |bs| == len && AreDigits(bs, 256)
    decreases len
  {
    if len == 0 then [] else ToBytes(n / 256, len - 1) + [n % 256]
  }

  /** The width `(n.bit_length() + 7) // 8` is exactly the number of base-256 digits. */
  lemma {:induction false} ByteWidth(n: nat)
    ensures |Digits(n, 256)| == (BitLength(n) + 7) / 8
  {
    if n >= 256 {
      assert BitLength(n) == 8 + BitLength(n / 2 / 2 / 2 / 2 / 2 / 2 / 2 / 2) by {
        assert n / 2 / 2 / 2 / 2 > 0 && n / 2 / 2 / 2 / 2 / 2 / 2 / 2 > 0;
        BitLength4(n);
        BitLength4(n / 2 / 2 / 2 / 2);
      }
      assert n / 2 / 2 / 2 / 2 / 2 / 2 / 2 / 2 == n / 256;
      ByteWidth(n / 256);
    } else if n > 0 {
      assert n / 256 == 0;
      BitLengthBelow256(n);
    }
  }

  lemma BitLength4(n: nat)
    requires n >= 8
    ensures BitLength(n) == 4 + BitLength(n / 2 / 2 / 2 / 2)
  {
    assert BitLength(n / 2 / 2) == 2 + BitLength(n / 2 / 2 / 2 / 2);
  }

  lemma BitLengthBelow16(n: nat)
    requires n < 16
    ensures BitLength(n) <= 4
  {
    if n >= 8 {
      BitLength4(n);
    } else {
      assert BitLength(n / 2 / 2) <= 1;
    }
  }

  lemma BitLengthBelow256(n: nat)
    requires 0 < n < 256
    ensures 1 <= BitLength(n) <= 8
  {
    if n >= 8 {
      BitLength4(n);
      BitLengthBelow16(n / 2 / 2 / 2 / 2);
    } else {
      BitLengthBelow16(n);
    }
  }

  lemma {:induction false} ToBytesIsDigits(n: nat)
    ensures ToBytes(n, |Digits(n, 256)|) == Digits(n, 256)
  {
    if n != 0 {
      ToBytesIsDigits(n / 256);
    }
  }
}
