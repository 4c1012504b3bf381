/** Share accounting over whole runs: shares add up, the price stays at one or above, all claims together fit the
  * assets, and rounding costs an idle holder less than one share's worth per withdrawal by others. */
module VaultShares {
  import opened Common
  import opened VaultMath
  import opened Vault
  import opened VaultLoops
  import opened VaultCalls
  import opened VaultRuns

  ghost predicate SharesAddUp(v: State, us: set<Address>) {
    Sum(us, Of(v.shares)) == v.totalShares
  }

  lemma HeldWithinTotal(v: State, us: set<Address>, a: Address)
    requires SharesAddUp(v, us) && a in us
    ensures At(v.shares, a) <= v.totalShares
  {
    SumNonNegative(us, Of(v.shares));
    assert Of(v.shares)(a) <= Sum(us, Of(v.shares));
  }

  /** The assets a completed withdrawal paid. */
  function PaidOut(v: State, w: State): int {
    v.totalAssets - w.totalAssets
  }

  predicate IsWithdrawal(call: Call) {
    call.Withdraw? || call.WithdrawUpTo?
  }

  /** Both withdrawal paths burn exactly the floor of what they pay, from the caller alone. */
  lemma WithdrawalBurnsFloor(v: State, sender: Address, call: Call)
    requires IsWithdrawal(call)
    ensures Apply(v, sender, call).Some? ==>
            var w := Apply(v, sender, call).value;
            && 0 < PaidOut(v, w) <= v.totalAssets
            && (call.WithdrawUpTo? ==> PaidOut(v, w) <= Wanted(v, sender, call.amount))
            && var sh := SharesFor(v, PaidOut(v, w));
               && sh <= At(v.shares, sender) && sh <= v.totalShares
               && (call.Withdraw? ==> sh > 0)
               && w.totalShares == v.totalShares - sh
               && w.shares == Put(v.shares, sender, At(v.shares, sender) - sh)
  {
    hide ToShares, ToAssets, RecallShortfall, Transfer;
    if call.WithdrawUpTo? && Apply(v, sender, call).Some? {
      var want := Wanted(v, sender, call.amount);
      var p := RecallShortfall(v, want).value;
      var paid := if At(p.token, v.self) < want then At(p.token, v.self) else want;
      ClampNeverFires(v, sender, call.amount, paid);
    }
  }

  lemma DepositMintsFloor(v: State, sender: Address, amount: nat)
    requires Apply(v, sender, Deposit(amount)).Some?
    ensures var w := Apply(v, sender, Deposit(amount)).value;
            var sh := SharesFor(v, amount);
            && w.totalAssets == v.totalAssets + amount
            && w.totalShares == v.totalShares + sh
            && w.shares == Put(v.shares, sender, At(v.shares, sender) + sh)
  {
    hide ToShares, ToAssets, Transfer;
  }

  /** All other calls leave shares alone. */
  lemma OtherCallsKeepShares(v: State, sender: Address, call: Call)
    requires Apply(v, sender, call).Some? && !IsWithdrawal(call) && !call.Deposit?
    ensures var w := Apply(v, sender, call).value;
            && w.shares == v.shares && w.totalShares == v.totalShares
            && (call.ReportLoss? ==> w.totalAssets == v.totalAssets - call.amount)
            && (call.EmergencyWithdraw? ==> w.totalAssets == v.totalAssets - Balance(v))
            && (!IsLoss(call) ==> v.totalAssets <= w.totalAssets)
  {
    hide Transfer, AllocateLoop, HarvestLoop, HarvestOne, FeeOn, LiveCount;
  }

  lemma CallSharesAddUp(v: State, us: set<Address>, sender: Address, call: Call)
    requires SharesAddUp(v, us) && sender in us
    ensures Apply(v, sender, call).Some? ==> SharesAddUp(Apply(v, sender, call).value, us)
  {
    hide ToShares, ToAssets, Sum, Of, Apply;
    if Apply(v, sender, call).None? { return; }
    var w := Apply(v, sender, call).value;
    if IsWithdrawal(call) {
      WithdrawalBurnsFloor(v, sender, call);
      PutSum(us, v.shares, sender, At(v.shares, sender) - SharesFor(v, PaidOut(v, w)));
    } else if call.Deposit? {
      DepositMintsFloor(v, sender, call.amount);
      PutSum(us, v.shares, sender, At(v.shares, sender) + SharesFor(v, call.amount));
    } else {
      OtherCallsKeepShares(v, sender, call);
    }
  }

  predicate IsLoss(call: Call) {
    call.ReportLoss? || call.EmergencyWithdraw?
  }

  /** Assets are not behind shares: the price is one or more. */
  predicate AtFloor(v: State) {
    v.totalShares <= v.totalAssets
  }

  /** A loss that what lies above the floor covers. */
  predicate LossFits(v: State, call: Call) {
    match call
    case ReportLoss(amount) => v.totalShares + amount <= v.totalAssets
    case EmergencyWithdraw => v.totalShares + Balance(v) <= v.totalAssets
    case _ => true
  }

  /** Exactly which calls keep the price at one or more: all but a reported loss or an emergency withdrawal that is larger
    * than what lies above it. */
  lemma CallKeepsFloorIff(v: State, us: set<Address>, sender: Address, call: Call)
    requires SharesAddUp(v, us) && sender in us && AtFloor(v) && Apply(v, sender, call).Some?
    ensures AtFloor(Apply(v, sender, call).value) <==> LossFits(v, call)
  {
    hide ToShares, Apply, Balance;
    var w := Apply(v, sender, call).value;
    if IsWithdrawal(call) {
      WithdrawalBurnsFloor(v, sender, call);
      HeldWithinTotal(v, us, sender);
      NoSharesNothingWanted(v, sender, call);
      WithdrawalKeepsFloor(PaidOut(v, w), v.totalShares, v.totalAssets);
    } else if call.Deposit? {
      DepositMintsFloor(v, sender, call.amount);
      DepositKeepsFloor(call.amount, v.totalShares, v.totalAssets);
    } else {
      OtherCallsKeepShares(v, sender, call);
    }
  }

  /** A withdrawal completes only while there are shares. */
  lemma NoSharesNothingWanted(v: State, sender: Address, call: Call)
    requires IsWithdrawal(call) && At(v.shares, sender) <= v.totalShares
    ensures Apply(v, sender, call).Some? ==> v.totalShares > 0
  {
    WithdrawalBurnsFloor(v, sender, call);
    hide Apply, Scale;
  }

  // ---- runs ----

  predicate CallersIn(us: set<Address>, e: Event) {
    e.CallVault? ==> e.sender in us
  }

  predicate NoLoss(e: Event) {
    e.CallVault? ==> !IsLoss(e.call)
  }

  lemma EventSharesAddUp(w: World, us: set<Address>, e: Event)
    requires SharesAddUp(w.v, us) && CallersIn(us, e)
    ensures SharesAddUp(Step(w, e).v, us)
  {
    hide Apply, Step;
    BooksMoveByCalls(w, e);
    if e.CallVault? && Apply(w.v, e.sender, e.call).Some? {
      CallSharesAddUp(w.v, us, e.sender, e.call);
    }
  }

  /** User shares sum to the total in every run, losses included. */
  lemma {:induction false} SharesAlwaysAddUp(w: World, us: set<Address>, es: seq<Event>)
    requires SharesAddUp(w.v, us) && forall i :: 0 <= i < |es| ==> CallersIn(us, es[i])
    ensures SharesAddUp(Run(w, es).v, us)
  {
    if es != [] {
      SharesAlwaysAddUp(w, us, es[..|es| - 1]);
      EventSharesAddUp(Run(w, es[..|es| - 1]), us, es[|es| - 1]);
    }
  }

  /** A completed call of this event fits. */
  predicate EventFits(v: State, e: Event) {
    e.CallVault? && Apply(v, e.sender, e.call).Some? ==> LossFits(v, e.call)
  }

  lemma EventKeepsFloorIff(w: World, us: set<Address>, e: Event)
    requires SharesAddUp(w.v, us) && AtFloor(w.v) && CallersIn(us, e)
    ensures AtFloor(Step(w, e).v) <==> EventFits(w.v, e)
  {
    hide Apply, LossFits, SharesAddUp;
    if e.CallVault? && Apply(w.v, e.sender, e.call).Some? {
      CallKeepsFloorIff(w.v, us, e.sender, e.call);
    }
  }

  /** The price stays at one or more all through a run exactly when every loss fits when its turn comes. */
  lemma {:induction false} FloorHoldsIff(w: World, us: set<Address>, es: seq<Event>)
    requires SharesAddUp(w.v, us) && AtFloor(w.v) && forall i :: 0 <= i < |es| ==> CallersIn(us, es[i])
    ensures (forall k :: 0 <= k <= |es| ==> AtFloor(Run(w, es[..k]).v))
            <==> (forall k :: 0 <= k < |es| ==> EventFits(Run(w, es[..k]).v, es[k]))
  {
    hide EventFits, AtFloor, Step, SharesAddUp;
    assert es[..|es|] == es;
    if es != [] {
      var n := |es| - 1;
      var before := es[..n];
      assert forall k :: 0 <= k <= n ==> before[..k] == es[..k];
      FloorHoldsIff(w, us, before);
      SharesAlwaysAddUp(w, us, before);
      if AtFloor(Run(w, before).v) {
        EventKeepsFloorIff(Run(w, before), us, es[n]);
      }
      assert forall k :: 0 <= k < n ==> before[k] == es[k];
    }
  }

  /** In particular in every run without a reported loss or an emergency withdrawal. */
  lemma PriceAlwaysAtLeastOne(w: World, us: set<Address>, es: seq<Event>)
    requires SharesAddUp(w.v, us) && AtFloor(w.v)
    requires forall i :: 0 <= i < |es| ==> CallersIn(us, es[i]) && NoLoss(es[i])
    ensures AtFloor(Run(w, es).v)
  {
    hide Run, Apply;
    FloorHoldsIff(w, us, es);
    assert es[..|es|] == es;
  }

  ghost function MaxWithdrawOf(v: State): Address -> int {
    (a: Address) => MaxWithdraw(v, a)
  }

  /** At a price of one or more, what all users may withdraw together is within the vault's assets. */
  lemma ClaimsFitAssets(v: State, us: set<Address>)
    requires SharesAddUp(v, us) && v.totalShares <= v.totalAssets
    ensures Sum(us, MaxWithdrawOf(v)) <= v.totalAssets
  {
    hide Scale;
    SumOfZeros(us);
    if v.totalShares == 0 {
      SumSame(us, MaxWithdrawOf(v), Of(v.shares));
    } else {
      var t, b := v.totalShares + SHARE_OFFSET, v.totalAssets + SHARE_OFFSET;
      ghost var left := (a: Address) => t * MaxWithdraw(v, a);
      ghost var right := (a: Address) => b * At(v.shares, a);
      SumLinear(us, _ => 0, MaxWithdrawOf(v), t, left);
      SumLinear(us, _ => 0, Of(v.shares), b, right);
      forall a | a in us ensures left(a) <= right(a) {
        ScaledValue(v, a);
      }
      SumAtMost(us, left, right);
      PoolCovers(v.totalShares, v.totalAssets);
      Cancel(Sum(us, MaxWithdrawOf(v)), v.totalAssets, t);
    }
  }

  lemma ScaledValue(v: State, a: Address)
    requires v.totalShares > 0
    ensures (v.totalShares + SHARE_OFFSET) * MaxWithdraw(v, a) <= (v.totalAssets + SHARE_OFFSET) * At(v.shares, a)
  {
    ScaleBounds(At(v.shares, a), v.totalAssets + SHARE_OFFSET, v.totalShares + SHARE_OFFSET);
  }

  // ---- an idle holder ----

  function Price(v: State): real {
    (v.totalAssets + SHARE_OFFSET) as real / (v.totalShares + SHARE_OFFSET) as real
  }

  lemma PriceStep(h: real, b: real, t: real, b': real, t': real)
    requires 0.0 < h <= t' && t > 0.0 && b > 0.0
    requires b * (t' - 1.0) < b' * t <= b * t'
    ensures b' / t' <= b / t
    ensures h * (b' / t') > h * (b / t) - b / t
  {
    var p, p' := b / t, b' / t';
    assert b == p * t && b' == p' * t';
    assert p' * (t * t') <= p * (t * t');
    assert p' <= p;
    assert p * t * (t' - 1.0) < p' * t' * t;
    assert t * (p * (t' - 1.0)) < t * (p' * t');
    assert p * (t' - 1.0) < p' * t';
    // t' * (p - p') < p, so h * (p - p') < p
    assert t' * (p - p') < p;
    assert h * (p - p') <= t' * (p - p');
  }

  /** One completed withdrawal by somebody else. */
  lemma WithdrawalBySomebodyElse(v: State, us: set<Address>, sender: Address, call: Call, holder: Address)
    requires SharesAddUp(v, us) && sender in us && holder in us && sender != holder && At(v.shares, holder) > 0
    requires IsWithdrawal(call)
    ensures Apply(v, sender, call).Some? ==>
            var w := Apply(v, sender, call).value;
            && At(w.shares, holder) == At(v.shares, holder)
            && Price(w) <= Price(v)
            && At(v.shares, holder) as real * Price(w) > At(v.shares, holder) as real * Price(v) - Price(v)
  {
    hide ToShares, Apply, SharesAddUp, Price;
    if Apply(v, sender, call).None? { return; }
    var w := Apply(v, sender, call).value;
    WithdrawalBurnsFloor(v, sender, call);
    CallSharesAddUp(v, us, sender, call);
    HeldWithinTotal(v, us, holder);
    HeldWithinTotal(w, us, holder);
    WithdrawalPrice(PaidOut(v, w), v.totalShares, v.totalAssets);
    PriceFalls(v, w, At(v.shares, holder));
  }

  lemma PriceFalls(v: State, w: State, h: nat)
    requires 0 < h <= w.totalShares
    requires var t, b := v.totalShares + SHARE_OFFSET, v.totalAssets + SHARE_OFFSET;
             var t', b' := w.totalShares + SHARE_OFFSET, w.totalAssets + SHARE_OFFSET;
             b * (t' - 1) < b' * t <= b * t'
    ensures Price(w) <= Price(v)
    ensures h as real * Price(w) > h as real * Price(v) - Price(v)
  {
    hide Scale;
    var t, b := v.totalShares + SHARE_OFFSET, v.totalAssets + SHARE_OFFSET;
    var t', b' := w.totalShares + SHARE_OFFSET, w.totalAssets + SHARE_OFFSET;
    ToReals(b, t', b', t);
    PriceStep(h as real, b as real, t as real, b' as real, t' as real);
  }

  lemma ToReals(b: int, t': int, b': int, t: int)
    requires b * (t' - 1) < b' * t <= b * t'
    ensures b as real * (t' as real - 1.0) < b' as real * t as real <= b as real * t' as real
  {
    assert (b * (t' - 1)) as real == b as real * (t' as real - 1.0);
    assert (b' * t) as real == b' as real * t as real;
    assert (b * t') as real == b as real * t' as real;
  }

  predicate WithdrawalByOthers(us: set<Address>, holder: Address, e: Event) {
    e.CallVault? && e.sender in us && e.sender != holder && IsWithdrawal(e.call)
  }

  /** What `h` shares lost in value from `v` to `w`. */
  function ValueLost(h: nat, v: State, w: State): real {
    h as real * Price(v) - h as real * Price(w)
  }

  /** `k` starting prices. */
  function Prices(k: nat, v: State): real {
    k as real * Price(v)
  }

  /** Over any run of k withdrawals by others an idle holder loses less than k starting share prices. */
  lemma {:induction false} IdleHolderLoss(w: World, us: set<Address>, holder: Address, es: seq<Event>)
    requires SharesAddUp(w.v, us) && holder in us && At(w.v.shares, holder) > 0
    requires forall i :: 0 <= i < |es| ==> WithdrawalByOthers(us, holder, es[i])
    ensures var x := Run(w, es);
            && At(x.v.shares, holder) == At(w.v.shares, holder)
            && Price(x.v) <= Price(w.v)
            && (if es == [] then ValueLost(At(w.v.shares, holder), w.v, x.v) == 0.0
                else ValueLost(At(w.v.shares, holder), w.v, x.v) < Prices(|es|, w.v))
  {
    hide Apply, Price, Prices, ValueLost;
    var h := At(w.v.shares, holder);
    if es == [] {
      LossAdds(h, 0, w.v, w.v, w.v);
    } else {
      var before, e := es[..|es| - 1], es[|es| - 1];
      var y := Run(w, before);
      IdleHolderLoss(w, us, holder, before);
      SharesAlwaysAddUp(w, us, before);
      if Apply(y.v, e.sender, e.call).Some? {
        WithdrawalBySomebodyElse(y.v, us, e.sender, e.call, holder);
      }
      LossAdds(h, |before|, w.v, y.v, Run(w, es).v);
    }
  }

  lemma LossAdds(h: nat, k: nat, v: State, y: State, x: State)
    ensures ValueLost(h, v, v) == 0.0
    ensures Price(y) <= Price(v) && (x == y || h as real * Price(x) > h as real * Price(y) - Price(y))
            && (if k == 0 then ValueLost(h, v, y) == 0.0 else ValueLost(h, v, y) < Prices(k, v))
            ==> ValueLost(h, v, x) < Prices(k + 1, v)
  {
    PricePositive(v);
    hide Price;
    assert (k + 1) as real * Price(v) == k as real * Price(v) + Price(v);
  }

  lemma PricePositive(v: State)
    ensures Price(v) > 0.0
  {
  }

  // ---- the same beside everything else others may do ----

  predicate ByOthers(us: set<Address>, holder: Address, e: Event) {
    e.CallVault? ==> e.sender in us && e.sender != holder && !IsLoss(e.call)
  }

  /** No other call of others lowers the price while the holder has shares. */
  lemma PriceOnlyFallsByWithdrawals(v: State, us: set<Address>, sender: Address, call: Call, holder: Address)
    requires SharesAddUp(v, us) && holder in us && sender != holder && At(v.shares, holder) > 0
    requires !IsWithdrawal(call) && !IsLoss(call) && Apply(v, sender, call).Some?
    ensures var w := Apply(v, sender, call).value;
            At(w.shares, holder) == At(v.shares, holder) && Price(v) <= Price(w)
  {
    hide ToShares, Apply, SharesAddUp, Price;
    var w := Apply(v, sender, call).value;
    HeldWithinTotal(v, us, holder);
    if call.Deposit? {
      DepositMintsFloor(v, sender, call.amount);
      DepositPrice(call.amount, v.totalShares, v.totalAssets);
    } else {
      OtherCallsKeepShares(v, sender, call);
      Cancel(v.totalAssets + SHARE_OFFSET, w.totalAssets + SHARE_OFFSET, v.totalShares + SHARE_OFFSET);
    }
    PriceRises(v, w);
  }

  lemma PriceRises(v: State, w: State)
    requires var t, b := v.totalShares + SHARE_OFFSET, v.totalAssets + SHARE_OFFSET;
             var t', b' := w.totalShares + SHARE_OFFSET, w.totalAssets + SHARE_OFFSET;
             b * t' <= b' * t
    ensures Price(v) <= Price(w)
  {
    var t, b := (v.totalShares + SHARE_OFFSET) as real, (v.totalAssets + SHARE_OFFSET) as real;
    var t', b' := (w.totalShares + SHARE_OFFSET) as real, (w.totalAssets + SHARE_OFFSET) as real;
    assert b * t' <= b' * t;
    Quotients(b, t, b', t');
  }

  lemma Quotients(b: real, t: real, b': real, t': real)
    requires t > 0.0 && t' > 0.0 && b * t' <= b' * t
    ensures b / t <= b' / t'
  {
    var p, p' := b / t, b' / t';
    assert b == p * t && b' == p' * t';
    assert p * (t * t') <= p' * (t * t');
  }

  /** What an event may cost each idle share holder: for a completed withdrawal the price just before it. */
  function Toll(v: State, e: Event): real {
    if e.CallVault? && IsWithdrawal(e.call) && Apply(v, e.sender, e.call).Some? then Price(v) else 0.0
  }

  ghost function Tolls(w: World, es: seq<Event>): real {
    if es == [] then 0.0 else Tolls(w, es[..|es| - 1]) + Toll(Run(w, es[..|es| - 1]).v, es[|es| - 1])
  }

  lemma EventCostsToll(w: World, us: set<Address>, holder: Address, e: Event)
    requires SharesAddUp(w.v, us) && holder in us && At(w.v.shares, holder) > 0 && ByOthers(us, holder, e)
    ensures var x, h := Step(w, e).v, At(w.v.shares, holder);
            && At(x.shares, holder) == h
            && 0.0 <= Toll(w.v, e)
            && ValueLost(h, w.v, x) <= Toll(w.v, e)
            && (Toll(w.v, e) > 0.0 ==> ValueLost(h, w.v, x) < Toll(w.v, e))
  {
    hide Apply, Price, SharesAddUp, Step;
    PricePositive(w.v);
    BooksMoveByCalls(w, e);
    if e.CallVault? && Apply(w.v, e.sender, e.call).Some? {
      if IsWithdrawal(e.call) {
        WithdrawalBySomebodyElse(w.v, us, e.sender, e.call, holder);
      } else {
        PriceOnlyFallsByWithdrawals(w.v, us, e.sender, e.call, holder);
        HoldingRises(At(w.v.shares, holder), Price(w.v), Price(Apply(w.v, e.sender, e.call).value));
      }
    } else {
      PriceOfBooks(w.v, Step(w, e).v);
    }
  }

  lemma PriceOfBooks(v: State, x: State)
    requires x.totalShares == v.totalShares && x.totalAssets == v.totalAssets
    ensures Price(x) == Price(v)
  {
  }

  lemma HoldingRises(h: nat, p: real, p': real)
    requires p <= p'
    ensures h as real * p <= h as real * p'
  {
  }

  /** Over any loss-free run of others, deposits, harvests and credits included, an idle holder loses less than the
    * share prices just before each withdrawal together. */
  lemma {:induction false} IdleHolderToll(w: World, us: set<Address>, holder: Address, es: seq<Event>)
    requires SharesAddUp(w.v, us) && holder in us && At(w.v.shares, holder) > 0
    requires forall i :: 0 <= i < |es| ==> ByOthers(us, holder, es[i])
    ensures var x := Run(w, es);
            var lost := ValueLost(At(w.v.shares, holder), w.v, x.v);
            && At(x.v.shares, holder) == At(w.v.shares, holder)
            && 0.0 <= Tolls(w, es)
            && lost <= Tolls(w, es)
            && (Tolls(w, es) > 0.0 ==> lost < Tolls(w, es))
  {
    hide Step, Price, SharesAddUp, Toll;
    if es != [] {
      var before, e := es[..|es| - 1], es[|es| - 1];
      IdleHolderToll(w, us, holder, before);
      SharesAlwaysAddUp(w, us, before);
      EventCostsToll(Run(w, before), us, holder, e);
    }
  }
}
