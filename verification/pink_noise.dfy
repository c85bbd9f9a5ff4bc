/** The Voss-McCartney pink noise generator: numRows integer rows, each
    refreshed at its own octave rate, plus one white draw per sample. The
    random draws (a 32-bit random integer shifted right by eight bits) are
    passed in; each lies in [-2^23, 2^23). */
module PinkNoiseGen {
  import opened Arith

  /** Capacity of the row array. */
  const MaxRandomRows: nat := 30

  /** Bits kept of each random draw. */
  const RandomBits: nat := 24

  /** 2^(RandomBits - 1): the magnitude bound of one draw. */
  const DrawLimit: int := 0x80_0000

  function Pow2(k: nat): (r: nat)
    ensures r >= 1
  {
    if k == 0 then 1 else 2 * Pow2(k - 1)
  }

  /** A value the shifted random source can produce. */
  predicate IsDraw(x: int)
  {
    -DrawLimit <= x < DrawLimit
  }

  predicate AllDraws(s: seq<int>)
  {
    forall i :: 0 <= i < |s| ==> IsDraw(s[i])
  }

  /** Brute-force sum of the rows, the quantity the running sum caches. */
  function Sum(s: seq<int>): int
  {
    if s == [] then 0 else Sum(s[..|s| - 1]) + s[|s| - 1]
  }

  /** Number of trailing zero bits of a positive integer. */
  function TrailingZeros(n: nat): nat
    requires n > 0
  {
    if n % 2 == 1 then 0 else 1 + TrailingZeros(n / 2)
  }

  /** pmax: the largest magnitude of rows plus white draw. */
  function PinkMax(numRows: nat): (m: int)
    ensures m >= DrawLimit
  {
    (numRows + 1) * DrawLimit
  }

  lemma {:induction false} Pow2Monotone(a: nat, b: nat)
    requires a <= b
    ensures Pow2(a) <= Pow2(b)
  {
    if a < b {
      Pow2Monotone(a, b - 1);
    }
  }

  /** TrailingZeros(n) is the exponent of the largest power of two dividing n. */
  lemma {:induction false} TrailingZerosDivides(n: nat)
    requires n > 0
    ensures n % Pow2(TrailingZeros(n)) == 0
    ensures (n / Pow2(TrailingZeros(n))) % 2 == 1
  {
    if n % 2 == 0 {
      TrailingZerosDivides(n / 2);
      var z := TrailingZeros(n / 2);
      var q := (n / 2) / Pow2(z);
      assert n / 2 == q * Pow2(z);
      assert n == q * Pow2(z + 1);
      DivExact(q, Pow2(z + 1));
    } else {
      assert TrailingZeros(n) == 0;
    }
  }

  /** A positive index below 2^k has fewer than k trailing zeros, so the row it
      selects exists. */
  lemma {:induction false} TrailingZerosBelow(n: nat, k: nat)
    requires 0 < n < Pow2(k)
    ensures TrailingZeros(n) < k
  {
    if n % 2 == 0 {
      assert k > 0;
      TrailingZerosBelow(n / 2, k - 1);
    }
  }

  /** Row z is refreshed exactly at the indices congruent to 2^z modulo
      2^(z+1): once every 2^(z+1) samples, the octave spacing of the rows. */
  lemma {:induction false} TrailingZerosPeriod(n: nat, z: nat)
    requires n > 0
    ensures TrailingZeros(n) == z <==> n % Pow2(z + 1) == Pow2(z)
  {
    if z == 0 {
      assert Pow2(1) == 2;
    } else if n % 2 == 1 {
      assert TrailingZeros(n) == 0;
      OddModPow2(n, z);
    } else {
      TrailingZerosPeriod(n / 2, z - 1);
      HalveMod(n, Pow2(z));
    }
  }

  /** An odd number is never 2^z modulo 2^(z+1) when z > 0. */
  lemma OddModPow2(n: nat, z: nat)
    requires n % 2 == 1 && z > 0
    ensures n % Pow2(z + 1) != Pow2(z)
  {
    var p := Pow2(z);
    var r := n % (2 * p);
    var q := n / (2 * p);
    assert n == q * (2 * p) + r;
    assert p == 2 * Pow2(z - 1);
    var h := Pow2(z - 1);
    assert p == 2 * h;
    assert n == 2 * (2 * q * h + r / 2) + r % 2 by {
      assert r == 2 * (r / 2) + r % 2;
      assert q * (2 * p) == 2 * (2 * q * h);
    }
    DivModUnique(n, 2, 2 * q * h + r / 2, r % 2);
    assert r % 2 == 1;
    assert p % 2 == 0;
  }

  /** For even n, n mod 2p is twice (n/2) mod p. */
  lemma HalveMod(n: nat, p: nat)
    requires n % 2 == 0 && p > 0
    ensures n % (2 * p) == 2 * ((n / 2) % p)
  {
    var h := n / 2;
    assert n == 2 * h;
    var q := h / p;
    var r := h % p;
    assert h == q * p + r;
    assert n == q * (2 * p) + 2 * r;
    DivModUnique(n, 2 * p, q, 2 * r);
  }

  /** Each row and the white draw lie in [-2^23, 2^23), so the sum of numRows
      rows lies in [-numRows * 2^23, numRows * (2^23 - 1)]. */
  lemma {:induction false} SumBound(s: seq<int>)
    requires AllDraws(s)
    ensures -|s| * DrawLimit <= Sum(s) <= |s| * (DrawLimit - 1)
  {
    if s != [] {
      var t := s[..|s| - 1];
      assert AllDraws(t) by {
        forall i | 0 <= i < |t| ensures IsDraw(t[i]) {
          assert t[i] == s[i];
        }
      }
      SumBound(t);
      assert IsDraw(s[|s| - 1]);
    }
  }

  /** Replacing one row changes the sum by the difference: the update the
      running sum performs instead of re-adding all rows. */
  lemma {:induction false} SumUpdate(s: seq<int>, i: nat, v: int)
    requires i < |s|
    ensures Sum(s[i := v]) == Sum(s) - s[i] + v
  {
    var t := s[i := v];
    if i == |s| - 1 {
      assert t[..|t| - 1] == s[..|s| - 1];
    } else {
      assert t[..|t| - 1] == s[..|s| - 1][i := v];
      SumUpdate(s[..|s| - 1], i, v);
    }
  }

  /** The output for a total of rows plus white draw: total / pmax. */
  function Scaled(total: int, numRows: nat): real
  {
    total as real * (1.0 / PinkMax(numRows) as real)
  }

  /** The output bound: rows and white draw all within the draw range give
      a scaled output in [-1, 1). */
  lemma OutputBound(rs: seq<int>, white: int)
    requires AllDraws(rs) && IsDraw(white)
    ensures -1.0 <= Scaled(Sum(rs) + white, |rs|) < 1.0
  {
    SumBound(rs);
    PinkScaleBound(|rs|, Sum(rs) + white);
  }

  /** The sum scaled by the stored factor. */
  function ScaleBy(total: int, scale: real): real
  {
    total as real * scale
  }

  lemma ScaledBy(total: int, scale: real, numRows: nat)
    requires scale == 1.0 / PinkMax(numRows) as real
    ensures ScaleBy(total, scale) == Scaled(total, numRows)
  {
  }

  /** A sum of numRows rows and one white draw, scaled by 1 / pmax, lies in
      [-1, 1). */
  lemma PinkScaleBound(numRows: nat, total: int)
    requires -PinkMax(numRows) <= total < PinkMax(numRows)
    ensures -1.0 <= Scaled(total, numRows) < 1.0
  {
    var m := PinkMax(numRows) as real;
    var t := total as real;
    assert -m <= t < m;
    RatioBounds(t, m);
  }

  lemma RatioBounds(t: real, m: real)
    requires m > 0.0 && -m <= t < m
    ensures -1.0 <= t * (1.0 / m) < 1.0
  {
    var q := t * (1.0 / m);
    assert q * m == t;
  }

  /** Number of trailing zeros, counted by shifting right until the low bit
      is set. The caller tests for zero first: the loop would not end on 0. */
  method CountTrailingZeros(index: int) returns (numZeros: nat)
    requires index > 0
    ensures numZeros == TrailingZeros(index)
    ensures index % Pow2(numZeros) == 0 && (index / Pow2(numZeros)) % 2 == 1
  {
    numZeros := 0;
    var n := index;
    while n % 2 == 0
      invariant n > 0
      invariant numZeros + TrailingZeros(n) == TrailingZeros(index)
      decreases n
    {
      n := n / 2;
      numZeros := numZeros + 1;
    }
    TrailingZerosDivides(index);
  }

  /** The generator state. The row array has room for MaxRandomRows rows, of
      which the first numRows are in use; numRows itself is not stored, only
      the index mask 2^numRows - 1 and the scale 1 / pmax derived from it. */
  class PinkNoise {
    const rows: array<int>
    var runningSum: int
    var index: int
    var indexMask: int
    var scalar: real
    ghost var numRows: nat

    ghost predicate Valid()
      reads this, rows
    {
      && rows.Length == MaxRandomRows
      && numRows <= MaxRandomRows
      && indexMask == Pow2(numRows) - 1
      && 0 <= index <= indexMask
      && scalar == 1.0 / PinkMax(numRows) as real
      && AllDraws(rows[..numRows])
      && runningSum == Sum(rows[..numRows])
    }

    /** The rows as the algorithm sees them. */
    ghost function Rows(): seq<int>
      reads this, rows
      requires numRows <= rows.Length
    {
      rows[..numRows]
    }

    /** Storage for a generator, not yet initialised. */
    constructor ()
      ensures rows.Length == MaxRandomRows && fresh(rows)
    {
      rows := new int[MaxRandomRows];
    }

    /** Sets up the generator for n rows: index 0, all rows and the running
        sum 0. Needs n <= 30: beyond that the row array overflows and the
        shift that builds the mask is undefined. */
    method Initialize(n: nat)
      requires rows.Length == MaxRandomRows
      requires n <= MaxRandomRows
      modifies this, rows
      ensures Valid() && numRows == n
      ensures index == 0 && runningSum == 0
      ensures forall i :: 0 <= i < n ==> rows[i] == 0
      ensures forall i :: n <= i < rows.Length ==> rows[i] == old(rows[i])
    {
      index := 0;
      indexMask := Pow2(n) - 1;
      scalar := 1.0 / PinkMax(n) as real;
      numRows := n;
      var i := 0;
      while i < n
        invariant 0 <= i <= n
        invariant index == 0 && indexMask == Pow2(n) - 1 && numRows == n
        invariant scalar == 1.0 / PinkMax(n) as real
        invariant forall j :: 0 <= j < i ==> rows[j] == 0
        invariant forall j :: n <= j < rows.Length ==> rows[j] == old(rows[j])
      {
        rows[i] := 0;
        i := i + 1;
      }
      runningSum := 0;
      assert forall j :: 0 <= j < n ==> rows[..n][j] == 0;
      ZeroSum(rows[..n]);
    }

    /** Steps the index modulo 2^numRows and, when it is nonzero, replaces
        the row selected by its trailing zeros with rowDraw, keeping the
        running sum equal to the sum of the rows. */
    method Advance(rowDraw: int)
      requires Valid() && IsDraw(rowDraw)
      modifies this`index, this`runningSum, rows
      ensures Valid() && numRows == old(numRows) && scalar == old(scalar)
      ensures index == (old(index) + 1) % Pow2(numRows)
      ensures index == 0 ==> Rows() == old(Rows())
      ensures index != 0 ==>
        TrailingZeros(index) < numRows &&
        Rows() == old(Rows())[TrailingZeros(index) := rowDraw]
      ensures forall i :: numRows <= i < rows.Length ==> rows[i] == old(rows[i])
    {
      index := (index + 1) % (indexMask + 1);
      if index != 0 {
        var numZeros := CountTrailingZeros(index);
        TrailingZerosBelow(index, numRows);
        ghost var before := rows[..numRows];
        SumUpdate(before, numZeros, rowDraw);
        runningSum := runningSum - rows[numZeros];
        runningSum := runningSum + rowDraw;
        rows[numZeros] := rowDraw;
        assert rows[..numRows] == before[numZeros := rowDraw];
      }
    }

    /** One pink sample: Advance, then add whiteDraw for this sample only and
        scale by 1 / pmax. The output lies in [-1, 1). rowDraw is not
        consumed when the index wraps to 0. */
    method Generate(rowDraw: int, whiteDraw: int) returns (output: real)
      requires Valid()
      requires IsDraw(rowDraw) && IsDraw(whiteDraw)
      modifies this`index, this`runningSum, rows
      ensures Valid() && numRows == old(numRows)
      ensures index == (old(index) + 1) % Pow2(numRows)
      ensures index == 0 ==> Rows() == old(Rows())
      ensures index != 0 ==>
        TrailingZeros(index) < numRows &&
        Rows() == old(Rows())[TrailingZeros(index) := rowDraw]
      ensures forall i :: numRows <= i < rows.Length ==> rows[i] == old(rows[i])
      ensures output == Scaled(runningSum + whiteDraw, numRows)
      ensures -1.0 <= output < 1.0
    {
      Advance(rowDraw);
      var sum := runningSum + whiteDraw;
      OutputBound(rows[..numRows], whiteDraw);
      ScaledBy(sum, scalar, numRows);
      output := ScaleBy(sum, scalar);
    }
  }

  lemma {:induction false} ZeroSum(s: seq<int>)
    requires forall i :: 0 <= i < |s| ==> s[i] == 0
    ensures Sum(s) == 0
  {
    if s != [] {
      ZeroSum(s[..|s| - 1]);
    }
  }
}
