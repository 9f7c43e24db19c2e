/**
 * Which table row each document ordinal cites (`CorpusBuilder.spread`).
 *
 * The table is walked once per block of `n` ordinals, and every further block starts a stride later.
 */
module Spread {

  /** The remainder operator of the generator's language: it takes the sign of its left operand. */
  function Remainder(a: int, n: int): (r: int)
    requires n > 0
    ensures -n < r < n
  {
    if a >= 0 then a % n else -((-a) % n)
  }

  function Row(n: nat, ordinal: nat, stride: int): (r: nat)
    requires n > 0
    ensures r < n
  {
    var bucket := ordinal / n;
    var offset := ordinal % n;
    NormalizedRemainder(offset + bucket * stride, n);
    Remainder(Remainder(offset + bucket * stride, n) + n, n)
  }

  /** The double remainder is the mathematical modulus, also for a negative stride. */
  lemma NormalizedRemainder(a: int, n: nat)
    requires n > 0
    ensures Remainder(Remainder(a, n) + n, n) == a % n
  {
    var r := Remainder(a, n);
    if a >= 0 {
      DivMod(r + n, n, 1, r);
    } else {
      var k, m := (-a) / n, (-a) % n;
      assert -a == k * n + m;
      if m == 0 {
        DivMod(r + n, n, 1, 0);
        assert a == (-k) * n + 0;
        DivMod(a, n, -k, 0);
      } else {
        DivMod(r + n, n, 0, n - m);
        assert a == (-k - 1) * n + (n - m) by {
          assert (-k - 1) * n == -(k * n) - n;
        }
        DivMod(a, n, -k - 1, n - m);
      }
    }
  }

  lemma SmallMultiple(d: int, n: int)
    requires -n < d * n < n
    ensures d == 0
  {
    assert d >= 1 ==> d * n >= n;
    assert d <= -1 ==> d * n <= -n;
  }

  lemma DivMod(a: int, n: nat, q: int, r: int)
    requires n > 0 && 0 <= r < n && a == q * n + r
    ensures a / n == q && a % n == r
  {
    var d := a / n - q;
    assert d * n == (a / n) * n - q * n;
    SmallMultiple(d, n);
  }

  lemma RowIsModulus(n: nat, ordinal: nat, stride: int)
    requires n > 0
    ensures Row(n, ordinal, stride) == (ordinal % n + (ordinal / n) * stride) % n
  {
    NormalizedRemainder(ordinal % n + (ordinal / n) * stride, n);
  }

  /** Within the first block the table is read in order, whatever the stride. */
  lemma FirstBlockIsIdentity(n: nat, ordinal: nat, stride: int)
    requires ordinal < n
    ensures Row(n, ordinal, stride) == ordinal
  {
    RowIsModulus(n, ordinal, stride);
    DivMod(ordinal, n, 0, ordinal);
    assert ordinal / n == 0;
  }

  /** The offset inside block `b` at which row `e` comes up. */
  function OffsetOf(n: nat, b: nat, stride: int, e: nat): (o: nat)
    requires e < n
    ensures o < n
  {
    (e - b * stride) % n
  }

  lemma RotationInverse(n: nat, o: nat, x: int, e: nat)
    requires o < n && e < n
    ensures (o + x) % n == e <==> o == (e - x) % n
  {
    if (o + x) % n == e {
      var q := (o + x) / n;
      assert o + x == q * n + e;
      assert e - x == (-q) * n + o;
      DivMod(e - x, n, -q, o);
    }
    if o == (e - x) % n {
      var q := (e - x) / n;
      assert e - x == q * n + o;
      assert o + x == (-q) * n + e;
      DivMod(o + x, n, -q, e);
    }
  }

  /** Ordinal `m` cites row `e` exactly when `e` is due at its offset. */
  lemma HitsWhenDue(n: nat, ordinal: nat, stride: int, e: nat)
    requires e < n
    ensures Row(n, ordinal, stride) == e <==> ordinal % n == OffsetOf(n, ordinal / n, stride, e)
  {
    RowIsModulus(n, ordinal, stride);
    RotationInverse(n, ordinal % n, (ordinal / n) * stride, e);
  }

  /** Each aligned block of `n` ordinals is a permutation of the table: row `e` comes up at one offset and no other. */
  lemma BlockIsPermutation(n: nat, b: nat, stride: int, e: nat, o: nat)
    requires e < n && o < n
    ensures Row(n, b * n + o, stride) == e <==> o == OffsetOf(n, b, stride, e)
  {
    DivMod(b * n + o, n, b, o);
    HitsWhenDue(n, b * n + o, stride, e);
  }

  /** How often row `e` is cited by the ordinals below `m`. */
  function Uses(n: nat, stride: int, m: nat, e: nat): nat
    requires n > 0
  {
    if m == 0 then 0
    else Uses(n, stride, m - 1, e) + if Row(n, m - 1, stride) == e then 1 else 0
  }

  lemma NextOrdinal(n: nat, m: nat)
    requires n > 0
    ensures if m % n + 1 < n then (m + 1) / n == m / n && (m + 1) % n == m % n + 1
            else (m + 1) / n == m / n + 1 && (m + 1) % n == 0
  {
    var q := m / n;
    if m % n + 1 < n {
      DivMod(m + 1, n, q, m % n + 1);
    } else {
      assert (q + 1) * n == q * n + n;
      DivMod(m + 1, n, q + 1, 0);
    }
  }

  /** The exact count: one use per finished block, and one more once the current block has passed the row's offset. */
  lemma {:induction false} UsesExact(n: nat, stride: int, m: nat, e: nat)
    requires e < n
    ensures Uses(n, stride, m, e) == m / n + if OffsetOf(n, m / n, stride, e) < m % n then 1 else 0
  {
    if m == 0 {
      DivMod(0, n, 0, 0);
    } else {
      UsesExact(n, stride, m - 1, e);
      UsesNext(n, stride, m - 1, e);
    }
  }

  lemma UsesNext(n: nat, stride: int, m: nat, e: nat)
    requires e < n && Uses(n, stride, m, e) == m / n + if OffsetOf(n, m / n, stride, e) < m % n then 1 else 0
    ensures Uses(n, stride, m + 1, e)
         == (m + 1) / n + if OffsetOf(n, (m + 1) / n, stride, e) < (m + 1) % n then 1 else 0
  {
    hide Row, OffsetOf;
    HitsWhenDue(n, m, stride, e);
    UsesStep(n, stride, m, e, OffsetOf(n, m / n, stride, e), OffsetOf(n, (m + 1) / n, stride, e));
  }

  lemma UsesStep(n: nat, stride: int, m: nat, e: nat, due: nat, dueNext: nat)
    requires due < n && dueNext < n
    requires (m + 1) / n == m / n ==> dueNext == due
    requires Uses(n, stride, m, e) == m / n + if due < m % n then 1 else 0
    requires Row(n, m, stride) == e <==> m % n == due
    ensures Uses(n, stride, m + 1, e) == (m + 1) / n + if dueNext < (m + 1) % n then 1 else 0
  {
    NextOrdinal(n, m);
  }

  /** After `m` consecutive ordinals every row has been cited floor(m/n) or ceil(m/n) times. */
  lemma {:induction false} CoverageIsEven(n: nat, stride: int, m: nat, e: nat)
    requires e < n
    ensures m / n <= Uses(n, stride, m, e) <= (m + n - 1) / n
  {
    UsesExact(n, stride, m, e);
    CeilingQuotient(n, m);
  }

  lemma CeilingQuotient(n: nat, m: nat)
    requires n > 0
    ensures (m + n - 1) / n == m / n + if m % n == 0 then 0 else 1
  {
    var q := m / n;
    if m % n == 0 {
      DivMod(m + n - 1, n, q, n - 1);
    } else {
      assert (q + 1) * n == q * n + n;
      DivMod(m + n - 1, n, q + 1, m % n - 1);
    }
  }
}
