/** How ticket draws spread over the channels: draw number t (from 1) goes to channel t mod n. */
module RoundRobin {

  /** How many of the first `k` draws go to channel `m` of `n`. */
  function Uses(k: nat, n: nat, m: nat): nat
    requires n > 0
  {
    if k == 0 then 0 else Uses(k - 1, n, m) + if k % n == m then 1 else 0
  }

  lemma Stretch(d: int, n: nat)
    ensures d >= 1 ==> d * n >= n
    ensures d <= -1 ==> d * n + n <= 0
  {
  }

  /** Quotient and remainder are unique. */
  lemma {:induction false} UniqueDivision(q: int, r: nat, q': int, r': nat, n: nat)
    requires r < n && r' < n && q * n + r == q' * n + r'
    ensures q == q' && r == r'
  {
    Stretch(q - q', n);
    assert (q - q') * n == r' - r;
  }

  lemma {:induction false} Division(q: nat, n: nat, r: nat)
    requires r < n
    ensures (q * n + r) % n == r && (q * n + r) / n == q
  {
    var k := q * n + r;
    UniqueDivision(q, r, k / n, k % n, n);
  }

  lemma {:induction false} UsesAt(q: nat, r: nat, n: nat, m: nat)
    requires r < n && m < n
    ensures Uses(q * n + r, n, m) == q + if 0 < m <= r then 1 else 0
    decreases q, r
  {
    if r > 0 {
      UsesAt(q, r - 1, n, m);
      Division(q, n, r);
    } else if q > 0 {
      UsesAt(q - 1, n - 1, n, m);
      Division(q, n, 0);
      assert q * n == (q - 1) * n + n;
    }
  }

  lemma Remainder(k: nat, n: nat)
    requires n > 0
    ensures k == (k / n) * n + k % n && 0 <= k % n < n
  {
  }

  /** After any number of draws each channel has had the same share, rounded down or up. */
  lemma {:induction false} FairShare(k: nat, n: nat, m: nat)
    requires m < n
    ensures k / n <= Uses(k, n, m) <= k / n + 1
    ensures Uses(k, n, m) == k / n + 1 ==> k % n != 0
    ensures k % n == 0 ==> Uses(k, n, m) == k / n
  {
    var q, r := k / n, k % n;
    UsesAt(q, r, n, m);
    Remainder(k, n);
  }

  lemma {:induction false} UsesGrow(k: nat, l: nat, n: nat, m: nat)
    requires n > 0 && k <= l
    ensures Uses(k, n, m) <= Uses(l, n, m)
    decreases l - k
  {
    if k < l { UsesGrow(k, l - 1, n, m); }
  }

  /** Up to `c` draws per channel, no channel has had more than `c`; at exactly that many, every channel has had `c`. */
  lemma {:induction false} NoChannelOverfull(k: nat, n: nat, m: nat, c: nat)
    requires m < n && k <= c * n
    ensures Uses(k, n, m) <= c
    ensures k == c * n ==> Uses(k, n, m) == c
  {
    UsesAt(c, 0, n, m);
    UsesGrow(k, c * n, n, m);
  }

  /** Channel 0 comes last in each round: with less than `c` draws per channel it has had less than `c`. */
  lemma {:induction false} LastChannelWaits(k: nat, n: nat, c: nat)
    requires n > 0 && k < c * n
    ensures Uses(k, n, 0) < c
  {
    Remainder(k, n);
    UsesAt(k / n, k % n, n, 0);
    Stretch(k / n - c, n);
    assert (k / n) * n == (k / n - c) * n + c * n;
  }

  /** `drawn` are the channels of the draws so far, in order. */
  ghost predicate Rotates(drawn: seq<nat>, n: nat) {
    n > 0 && forall t | 0 <= t < |drawn| :: drawn[t] == (t + 1) % n
  }

  lemma {:induction false} DrawsAreUses(drawn: seq<nat>, n: nat, m: nat)
    requires Rotates(drawn, n)
    ensures multiset(drawn)[m] == Uses(|drawn|, n, m)
  {
    if drawn != [] {
      var k := |drawn| - 1;
      DrawsAreUses(drawn[..k], n, m);
      assert drawn == drawn[..k] + [drawn[k]];
    }
  }

  /** So in an actual list of draws every channel comes up its fair share of times. */
  lemma {:induction false} DrawsAreFair(drawn: seq<nat>, n: nat, m: nat)
    requires Rotates(drawn, n) && m < n
    ensures multiset(drawn)[m] == Uses(|drawn|, n, m)
    ensures |drawn| / n <= multiset(drawn)[m] <= |drawn| / n + 1
  {
    DrawsAreUses(drawn, n, m);
    FairShare(|drawn|, n, m);
  }
}
