/*
 * Order amounts: the cart subtotal, the 18% goods-and-services tax, and the
 * checkout total rounded to whole rupees. Money is an exact `real`.
 */
module Amounts {
  import opened Store

  /** price × quantity of one line. */
  function LineTotal(line: CartLine): real
  {
    line.artwork.price * line.quantity as real
  }

  /** Σ price × quantity over the lines, added from the first line to the last. */
  function Subtotal(lines: seq<CartLine>): real
  {
    if lines == [] then 0.0 else Subtotal(lines[..|lines| - 1]) + LineTotal(lines[|lines| - 1])
  }

  /** The subtotal of two carts put together is the sum of their subtotals. */
  lemma {:induction false} SubtotalAppend(a: seq<CartLine>, b: seq<CartLine>)
    ensures Subtotal(a + b) == Subtotal(a) + Subtotal(b)
    decreases |b|
  {
    if b == [] {
      assert a + b == a;
    } else {
      var n := |b| - 1;
      assert (a + b)[..|a + b| - 1] == a + b[..n];
      SubtotalAppend(a, b[..n]);
    }
  }

  /** The order of the cart rows does not change the subtotal. */
  lemma {:induction false} SubtotalPermutation(a: seq<CartLine>, b: seq<CartLine>)
    requires multiset(a) == multiset(b)
    ensures Subtotal(a) == Subtotal(b)
    decreases |a|
  {
    if a == [] {
      assert |b| == |multiset(b)| == 0;
    } else {
      var n := |a| - 1;
      var x := a[n];
      assert a == a[..n] + [x];
      assert x in multiset(a);
      assert x in multiset(b);
      var k :| 0 <= k < |b| && b[k] == x;
      assert b == b[..k] + [x] + b[k + 1..];
      var rest := b[..k] + b[k + 1..];
      calc {
        multiset(b);
        multiset(b[..k] + [x] + b[k + 1..]);
        multiset(b[..k]) + multiset{x} + multiset(b[k + 1..]);
        multiset(rest) + multiset{x};
      }
      assert multiset(a) == multiset(a[..n]) + multiset{x};
      assert multiset(a[..n]) == multiset(a) - multiset{x} == multiset(rest);
      SubtotalPermutation(a[..n], rest);
      SubtotalAppend(b[..k], [x]);
      SubtotalAppend(b[..k] + [x], b[k + 1..]);
      SubtotalAppend(b[..k], b[k + 1..]);
    }
  }

  /** Prices and quantities that are not negative give a subtotal that is not negative. */
  lemma {:induction false} SubtotalNonNegative(lines: seq<CartLine>)
    requires forall i :: 0 <= i < |lines| ==> lines[i].artwork.price >= 0.0 && lines[i].quantity >= 0
    ensures Subtotal(lines) >= 0.0
    decreases |lines|
  {
    if lines != [] {
      SubtotalNonNegative(lines[..|lines| - 1]);
    }
  }

  /** The `forEach` loop of the cart page and of checkout: `subtotal += price * quantity`. */
  method AccumulateSubtotal(lines: seq<CartLine>) returns (subtotal: real)
    ensures subtotal == Subtotal(lines)
  {
    subtotal := 0.0;
    for i := 0 to |lines|
      invariant subtotal == Subtotal(lines[..i])
    {
      assert lines[..i + 1][..i] == lines[..i];
      subtotal := subtotal + lines[i].artwork.price * lines[i].quantity as real;
    }
    assert lines[..|lines|] == lines;
  }

  /** The goods-and-services tax rate. */
  const GstRate: real := 0.18

  /** The three amounts the cart page shows. */
  datatype Summary = Summary(subtotal: real, gst: real, total: real)

  /** `updateSummary`: the tax is 18% of the subtotal and the total adds it on. */
  function OrderSummary(subtotal: real): (s: Summary)
    ensures s.subtotal == subtotal
    ensures s.total == 1.18 * subtotal
    ensures s.gst == s.total - s.subtotal
    ensures subtotal >= 0.0 ==> 0.0 <= s.gst <= s.total
  {
    var gst := subtotal * GstRate;
    Summary(subtotal, gst, subtotal + gst)
  }

  /** JavaScript's `Math.round`: the integer nearest to `x`, a half rounded up. */
  function Round(x: real): (n: int)
    ensures n as real - 0.5 <= x < n as real + 0.5
  {
    (x + 0.5).Floor
  }

  /** Only one integer lies within half a unit of `x` in the sense of `Round`. */
  lemma RoundUnique(x: real, n: int)
    requires n as real - 0.5 <= x < n as real + 0.5
    ensures Round(x) == n
  {
  }

  /** The checkout total: subtotal plus tax, rounded to whole rupees. */
  function CheckoutTotal(subtotal: real): (total: int)
    ensures total as real - 0.5 <= 1.18 * subtotal < total as real + 0.5
    ensures subtotal >= 0.0 ==> total >= 0
  {
    Round(OrderSummary(subtotal).total)
  }
}
