/** The moving-average window as a value: its sum and truncated mean, the
    ring rotation that puts its slots in arrival order, and the readings it
    should hold after a given history of ADC conversions. */
module SampleWindow {

  /** Sum of a sequence of readings. */
  function Sum(s: seq<int>): int
  {
    if s == [] then 0 else Sum(s[..|s| - 1]) + s[|s| - 1]
  }

  /** The truncated arithmetic mean (all readings are unsigned, so
      truncation and floor agree). */
  function Mean(s: seq<int>): int
    requires |s| > 0
  {
    Sum(s) / |s|
  }

  lemma {:induction false} SumAppend(a: seq<int>, b: seq<int>)
    ensures Sum(a + b) == Sum(a) + Sum(b)
    decreases |b|
  {
    if b == [] {
      assert a + b == a;
    } else {
      assert (a + b)[..|a + b| - 1] == a + b[..|b| - 1];
      SumAppend(a, b[..|b| - 1]);
    }
  }

  /** If every reading lies in [lo, hi], so does the sum divided by the count. */
  lemma {:induction false} SumBounds(s: seq<int>, lo: int, hi: int)
    requires forall i :: 0 <= i < |s| ==> lo <= s[i] <= hi
    ensures lo * |s| <= Sum(s) <= hi * |s|
    decreases |s|
  {
    if s != [] {
      var n := |s| - 1;
      SumBounds(s[..n], lo, hi);
      assert lo * |s| == lo * n + lo && hi * |s| == hi * n + hi;
    }
  }

  /** The mean of readings in [lo, hi] is in [lo, hi]. */
  lemma MeanBounds(s: seq<int>, lo: int, hi: int)
    requires |s| > 0
    requires forall i :: 0 <= i < |s| ==> lo <= s[i] <= hi
    ensures lo <= Mean(s) <= hi
  {
    SumBounds(s, lo, hi);
    DivBetween(Sum(s), |s|, lo, hi);
  }

  /** Truncating division keeps a quotient between bounds on the dividend. */
  lemma DivBetween(t: int, n: int, lo: int, hi: int)
    requires n > 0 && lo * n <= t <= hi * n
    ensures lo <= t / n <= hi
  {
    var q := t / n;
    assert q * n <= t < q * n + n;
    if q < lo {
      MulMonotone(q + 1, lo, n);
    }
    if q > hi {
      MulMonotone(hi + 1, q, n);
    }
  }

  lemma MulMonotone(a: int, b: int, n: int)
    requires a <= b && n >= 0
    ensures a * n <= b * n
  {
  }

  /** A window holding one value n times averages to that value. */
  lemma MeanOfConstant(n: nat, v: int)
    requires n > 0
    ensures Mean(seq(n, _ => v)) == v
  {
    MeanBounds(seq(n, _ => v), v, v);
  }

  /** The ring read from slot k onwards and then wrapping round: with k the
      next slot to be overwritten, this lists the slots oldest first. */
  function Rotate<T>(s: seq<T>, k: nat): (r: seq<T>)
    requires k <= |s|
    ensures |r| == |s|
  {
    s[k..] + s[..k]
  }

  /** Rotating a ring does not change its sum. */
  lemma SumRotate(s: seq<int>, k: nat)
    requires k <= |s|
    ensures Sum(Rotate(s, k)) == Sum(s)
  {
    SumAppend(s[k..], s[..k]);
    SumAppend(s[..k], s[k..]);
    assert s[..k] + s[k..] == s;
  }

  /** Writing slot i of a ring in arrival order and moving to the next slot
      drops the oldest reading and appends the new one. */
  lemma WriteAdvancesWindow<T>(a: seq<T>, i: nat, r: T)
    requires i < |a|
    ensures Rotate(a[i := r], (i + 1) % |a|) == Rotate(a, i)[1..] + [r]
  {
    var b := a[i := r];
    assert Rotate(a, i)[1..] == a[i + 1..] + a[..i];
    if i + 1 < |a| {
      assert (i + 1) % |a| == i + 1;
      assert b[i + 1..] == a[i + 1..];
      assert b[..i + 1] == a[..i] + [r];
    } else {
      assert (i + 1) % |a| == 0;
      assert a[i + 1..] == [];
      assert b == a[..i] + [r];
    }
  }

  /** The n readings the window should hold after the conversions `rs`: the
      most recent n of them, preceded by zeros while fewer than n arrived. */
  function Latest(n: nat, rs: seq<int>): (w: seq<int>)
    ensures |w| == n
  {
    (seq(n, _ => 0) + rs)[|rs|..]
  }

  /** One more conversion drops the oldest entry and appends the new one. */
  lemma LatestPush(n: nat, rs: seq<int>, r: int)
    requires n > 0
    ensures Latest(n, rs + [r]) == Latest(n, rs)[1..] + [r]
  {
    assert seq(n, _ => 0) + (rs + [r]) == (seq(n, _ => 0) + rs) + [r];
  }

  /** Once n or more conversions arrived, the window is exactly the last n
      of them and no zero seed is left. */
  lemma LatestAfterFill(n: nat, rs: seq<int>)
    requires |rs| >= n
    ensures Latest(n, rs) == rs[|rs| - n..]
  {
  }

  /** Before anything arrives the window is all zeros. */
  lemma LatestInitial(n: nat)
    ensures Latest(n, []) == seq(n, _ => 0)
  {
  }
}
