/** Share conversion of ProYieldVault: floor rounding in both directions around a virtual offset. */
module VaultMath {

  const SHARE_OFFSET: nat := 1000

  function ToShares(assets: nat, totalShares: nat, totalAssets: nat): nat {
    if totalShares == 0 then assets
    else Scale(assets, totalShares + SHARE_OFFSET, totalAssets + SHARE_OFFSET)
  }

  function ToAssets(shares: nat, totalShares: nat, totalAssets: nat): nat {
    if totalShares == 0 then shares
    else Scale(shares, totalAssets + SHARE_OFFSET, totalShares + SHARE_OFFSET)
  }

  /** x * num / den, rounded down. */
  function Scale(x: nat, num: nat, den: nat): nat
    requires den > 0
  {
    var product: nat := x * num;
    product / den
  }

  lemma ScaleBounds(x: nat, num: nat, den: nat)
    requires den > 0
    ensures Scale(x, num, den) * den <= x * num < (Scale(x, num, den) + 1) * den
  {
  }

  /** Both conversions are exact floors of the offset price, one to one without shares. */
  lemma ConversionsAreFloors(x: nat, totalShares: nat, totalAssets: nat)
    ensures totalShares == 0 ==> ToShares(x, 0, totalAssets) == x && ToAssets(x, 0, totalAssets) == x
    ensures totalShares > 0 ==>
              var t, b := totalShares + SHARE_OFFSET, totalAssets + SHARE_OFFSET;
              var sh, value := ToShares(x, totalShares, totalAssets), ToAssets(x, totalShares, totalAssets);
              sh * b <= x * t < (sh + 1) * b && value * t <= x * b < (value + 1) * t
  {
    if totalShares > 0 {
      ScaleBounds(x, totalShares + SHARE_OFFSET, totalAssets + SHARE_OFFSET);
      ScaleBounds(x, totalAssets + SHARE_OFFSET, totalShares + SHARE_OFFSET);
    }
  }

  /** Comparing two products with a common positive factor. */
  lemma Cancel(a: int, b: int, k: int)
    requires k > 0
    ensures a * k < b * k ==> a < b
    ensures a * k <= b * k ==> a <= b
    ensures a < b ==> a * k < b * k
    ensures a <= b ==> a * k <= b * k
  {
    if a < b { Positive(b - a, k); } else { Positive(a - b + 1, k); }
  }

  lemma Positive(a: int, k: int)
    requires a > 0 && k > 0
    ensures a * k >= k
    ensures a * k > 0
  {
  }

  /** Converting assets worth no more than a holding never burns more than the holding. */
  lemma PayingWithinValue(paid: nat, held: nat, totalShares: nat, totalAssets: nat)
    requires paid <= ToAssets(held, totalShares, totalAssets)
    ensures ToShares(paid, totalShares, totalAssets) <= held
  {
    if totalShares > 0 {
      var t, b := totalShares + SHARE_OFFSET, totalAssets + SHARE_OFFSET;
      var v, s := Scale(held, b, t), Scale(paid, t, b);
      ScaleBounds(held, b, t);
      ScaleBounds(paid, t, b);
      Cancel(paid, v, t);
      assert s * b <= paid * t <= v * t <= held * b;
      Cancel(s, held, b);
    }
  }

  /** At a share price of one or more, a round trip through assets costs at most one share. */
  lemma RoundTrip(shares: nat, totalShares: nat, totalAssets: nat)
    requires 0 < totalShares <= totalAssets
    ensures var back := ToShares(ToAssets(shares, totalShares, totalAssets), totalShares, totalAssets);
            back == shares || back == shares - 1
  {
    var t, b := totalShares + SHARE_OFFSET, totalAssets + SHARE_OFFSET;
    var v := Scale(shares, b, t);
    var back := Scale(v, t, b);
    PayingWithinValue(v, shares, totalShares, totalAssets);
    ScaleBounds(shares, b, t);
    ScaleBounds(v, t, b);
    assert (v + 1) * t == v * t + t;
    assert (back + 1) * b > v * t > shares * b - t >= shares * b - b;
    assert (back + 2) * b == (back + 1) * b + b;
    Cancel(shares, back + 2, b);
  }

  /** A withdrawal lowers the price by less than the share that rounding may have kept, and never raises it. */
  lemma WithdrawalPrice(assets: nat, totalShares: nat, totalAssets: nat)
    requires totalShares > 0 && assets <= totalAssets
    ensures var burned := ToShares(assets, totalShares, totalAssets);
            var t, b := totalShares + SHARE_OFFSET, totalAssets + SHARE_OFFSET;
            b * (t - burned - 1) < (b - assets) * t <= b * (t - burned)
  {
    var t, b := totalShares + SHARE_OFFSET, totalAssets + SHARE_OFFSET;
    var burned := Scale(assets, t, b);
    ScaleBounds(assets, t, b);
    assert (b - assets) * t == b * t - assets * t;
    assert b * (t - burned) == b * t - burned * b;
    assert b * (t - burned - 1) == b * t - (burned + 1) * b;
  }

  /** A deposit into a vault with shares never lowers the price. */
  lemma DepositPrice(assets: nat, totalShares: nat, totalAssets: nat)
    requires totalShares > 0
    ensures var minted := ToShares(assets, totalShares, totalAssets);
            var t, b := totalShares + SHARE_OFFSET, totalAssets + SHARE_OFFSET;
            b * (t + minted) <= (b + assets) * t
  {
    var t, b := totalShares + SHARE_OFFSET, totalAssets + SHARE_OFFSET;
    ScaleBounds(assets, t, b);
    var minted := Scale(assets, t, b);
    assert (b + assets) * t == b * t + assets * t;
    assert b * (t + minted) == b * t + minted * b;
  }

  /** A price that does not fall does not lower the floor value of a holding. */
  lemma ValueFollowsPrice(held: nat, t: nat, b: nat, t': nat, b': nat)
    requires t > 0 && t' > 0 && b * t' <= b' * t
    ensures Scale(held, b, t) <= Scale(held, b', t')
  {
    var v, v' := Scale(held, b, t), Scale(held, b', t');
    ScaleBounds(held, b, t);
    ScaleBounds(held, b', t');
    if held == 0 {
      Cancel(v, 0, t);
    } else {
      Regroup(v, held, t, b, t');
      Regroup(held, v' + 1, b', t', t);
      Cancel(v * t, held * b, t');
      Cancel(b * t', b' * t, held);
      assert held * (b * t') <= held * (b' * t);
      Cancel(held * b', (v' + 1) * t', t);
      Positive(t, t');
      Cancel(v, v' + 1, t * t');
    }
  }

  /** At a price of one or more all shares together are worth no more than the assets. */
  lemma PoolCovers(s: nat, a: nat)
    requires s <= a
    ensures (a + SHARE_OFFSET) * s <= a * (s + SHARE_OFFSET)
  {
  }

  /** Assets never fall behind shares: deposits and withdrawals keep the share price at one or above. */
  lemma DepositKeepsFloor(assets: nat, totalShares: nat, totalAssets: nat)
    requires totalShares <= totalAssets
    ensures totalShares + ToShares(assets, totalShares, totalAssets) <= totalAssets + assets
  {
    if totalShares > 0 {
      var t, b := totalShares + SHARE_OFFSET, totalAssets + SHARE_OFFSET;
      var minted := Scale(assets, t, b);
      ScaleBounds(assets, t, b);
      assert assets * t <= assets * b by { if assets > 0 { Cancel(t, b, assets); } }
      Cancel(minted, assets, b);
    }
  }

  lemma WithdrawalKeepsFloor(assets: nat, totalShares: nat, totalAssets: nat)
    requires 0 < totalShares <= totalAssets && assets <= totalAssets
    ensures totalShares - ToShares(assets, totalShares, totalAssets) <= totalAssets - assets
  {
    var t, b := totalShares + SHARE_OFFSET, totalAssets + SHARE_OFFSET;
    var burned := Scale(assets, t, b);
    var gap := b - t;
    ScaleBounds(assets, t, b);
    // assets * t == assets * b - assets * gap, so (assets - burned - 1) * b < assets * gap
    assert assets * t == assets * b - assets * gap;
    assert (burned + 1) * b == burned * b + b;
    assert (assets - burned - 1) * b < assets * gap by {
      assert (assets - burned - 1) * b == assets * b - burned * b - b;
    }
    if gap == 0 {
      Cancel(assets - burned - 1, 0, b);
    } else {
      assert assets * gap < b * gap by { Cancel(assets, b, gap); }
      assert b * gap == gap * b;
      Cancel(assets - burned - 1, gap, b);
    }
  }

  /** The depositor's value after the mint is at most the value before plus the deposit, though the mint moved the price. */
  lemma DepositorValue(assets: nat, held: nat, totalShares: nat, totalAssets: nat)
    requires 0 < totalShares && held <= totalShares
    ensures var minted := ToShares(assets, totalShares, totalAssets);
            ToAssets(held + minted, totalShares + minted, totalAssets + assets)
            <= ToAssets(held, totalShares, totalAssets) + assets
  {
    var t, b := totalShares + SHARE_OFFSET, totalAssets + SHARE_OFFSET;
    var minted := Scale(assets, t, b);
    var t', b' := t + minted, b + assets;
    var v, v' := Scale(held, b, t), Scale(held + minted, b', t');
    ScaleBounds(held, b, t);
    ScaleBounds(held + minted, b', t');
    DepositPrice(assets, totalShares, totalAssets);
    OthersKeepTheirPart(t - held, t, b, t', b', v, v', assets);
  }

  /** And it is worth at least the value before plus the deposit, less one unit and one share price. */
  lemma DepositorKeepsValue(assets: nat, held: nat, totalShares: nat, totalAssets: nat)
    requires 0 < totalShares
    ensures var minted := ToShares(assets, totalShares, totalAssets);
            var lost := ToAssets(held, totalShares, totalAssets) + assets
                        - ToAssets(held + minted, totalShares + minted, totalAssets + assets);
            (lost - 1) * (totalShares + SHARE_OFFSET) < totalAssets + SHARE_OFFSET
  {
    var t, b := totalShares + SHARE_OFFSET, totalAssets + SHARE_OFFSET;
    var minted := Scale(assets, t, b);
    var t', b' := t + minted, b + assets;
    var v, v' := Scale(held, b, t), Scale(held + minted, b', t');
    ScaleBounds(held, b, t);
    ScaleBounds(assets, t, b);
    ScaleBounds(held + minted, b', t');
    DepositPrice(assets, totalShares, totalAssets);
    AtOldPrice(held + minted, v' + 1, t, b, t', b');
    LessThanOnePrice(v, v' + 1, held, minted, assets, t, b);
  }

  lemma LessThanOnePrice(v: nat, bound: nat, held: nat, minted: nat, assets: nat, t: nat, b: nat)
    requires v * t <= held * b && assets * t < (minted + 1) * b && (held + minted) * b < bound * t
    ensures (v + assets - bound) * t < b
  {
    Split(held, minted, b);
    Split(minted, 1, b);
    Split(v, assets, t);
    Split(v + assets, bound, t);
  }

  /** A bound on the value at the new price is one at the old price. */
  lemma AtOldPrice(held: nat, bound: nat, t: nat, b: nat, t': nat, b': nat)
    requires t > 0 && t' > 0 && b * t' <= b' * t && held * b' < bound * t'
    ensures held * b < bound * t
  {
    Regroup(held, bound, b', t', t);
    Cancel(held * b', bound * t', t);
    if held > 0 { Cancel(b * t', b' * t, held); }
    assert held * (b * t') <= held * (b' * t) == held * b' * t < bound * t' * t;
    assert held * (b * t') == held * b * t' && bound * t' * t == bound * t * t';
    Cancel(held * b, bound * t, t');
  }

  /** The rest of the pool is worth no less after the mint, so the depositor's part is worth no more than it paid in. */
  lemma OthersKeepTheirPart(rest: nat, t: nat, b: nat, t': nat, b': nat, v: nat, v': nat, assets: nat)
    requires 0 < rest <= t && t > 0 && t' > 0 && t' >= rest && b' == b + assets
    requires b * t' <= b' * t
    requires (t - rest) * b < (v + 1) * t
    requires v' * t' <= (t' - rest) * b'
    ensures v' <= v + assets
  {
    var x, y, p := b * t', b' * t, t * t';
    Regroup(v', t' - rest, t', b', t);
    Regroup(t - rest, v + 1, b, t, t');
    Cancel(v' * t', (t' - rest) * b', t);
    Cancel((t - rest) * b, (v + 1) * t, t');
    Cancel(x, y, rest);
    PoolGrowth(t, b, t', assets);
    Split(t', rest, y);
    Split(t, rest, x);
    Split(v + 1, assets, p);
    assert x * rest == rest * x && y * rest == rest * y;
    Positive(t, t');
    Cancel(v', v + 1 + assets, p);
  }

  lemma PoolGrowth(t: int, b: int, t': int, assets: int)
    ensures t' * ((b + assets) * t) == t * (b * t') + assets * (t * t')
  {
    assert (b + assets) * t == b * t + assets * t;
    assert t' * (b * t + assets * t) == t' * (b * t) + t' * (assets * t);
    assert t' * (b * t) == t * (b * t');
    assert t' * (assets * t) == assets * (t * t');
  }

  lemma Split(m: int, n: int, k: int)
    ensures (m - n) * k == m * k - n * k
    ensures (m + n) * k == m * k + n * k
  {
  }

  lemma Regroup(m: int, n: int, c: int, d: int, k: int)
    ensures m * c * k == m * (c * k)
    ensures n * d * k == n * (d * k)
  {
  }
}
