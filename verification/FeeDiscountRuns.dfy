/** Whole runs of PYDFeeDiscount: what can ever accrue, what is claimed, and what stays staked. */
module FeeDiscountRuns {
  import opened Common
  import opened FeeDiscount
  import VaultMath
  import VaultShares
  import VaultRuns

  /** Somebody calls; or tokens move elsewhere, PYD possibly into the contract, USDC to and from anyone. */
  datatype Event = Act(sender: Address, call: Call) | Outside(pyd: Ledger, donated: nat, usdc: Ledger)

  /** The contract with every rebate ever accrued and every rebate ever claimed. */
  datatype World = World(s: State, accrued: nat, claimed: nat)

  /** What a snapshot adds to all rebates together. */
  function Accrual(s: State, list: seq<Address>, shares: Ledger, totalShares: nat, feeDelta: nat): nat
    requires totalShares > 0
  {
    if list == [] then 0
    else Accrual(s, list[..|list| - 1], shares, totalShares, feeDelta)
         + RebateFor(s, list[|list| - 1], shares, totalShares, feeDelta)
  }

  function Accrued(s: State, call: Call): nat {
    if !call.SnapshotHarvest? || call.totalShares == 0 || At(s.usdc, s.feeDistributor) <= s.lastFeeSnapshot then 0
    else Accrual(s, s.stakerList, call.shares, call.totalShares, At(s.usdc, s.feeDistributor) - s.lastFeeSnapshot)
  }

  function Step(w: World, e: Event): World {
    match e
    case Outside(pyd, donated, usdc) =>
      w.(s := w.s.(pyd := Put(pyd, w.s.self, At(w.s.pyd, w.s.self) + donated), usdc := usdc))
    case Act(sender, call) =>
      match Apply(w.s, sender, call)
      case None => w
      case Some(s) =>
        World(s, w.accrued + Accrued(w.s, call),
              w.claimed + (if call.ClaimRebate? then Claimable(w.s, sender) else 0))
  }

  ghost function Run(w: World, es: seq<Event>): World {
    Fold(Step, w, es)
  }

  /** The share weights a snapshot reads belong to distinct holders of one vault. */
  ghost predicate Weights(shares: Ledger, totalShares: nat, us: set<Address>) {
    totalShares > 0 ==> Sum(us, Of(shares)) <= totalShares
  }

  ghost predicate Admissible(self: Address, us: set<Address>, e: Event) {
    e.Act? ==>
      && e.sender in us && e.sender != self
      && (e.call.SnapshotHarvest? ==> Weights(e.call.shares, e.call.totalShares, us))
  }

  /** Every reachable vault gives a snapshot such weights. */
  lemma ReachableVaultWeighs(w: VaultRuns.World, us: set<Address>, es: seq<VaultRuns.Event>)
    requires VaultShares.SharesAddUp(w.v, us) && forall i :: 0 <= i < |es| ==> VaultShares.CallersIn(us, es[i])
    ensures var v := VaultRuns.Run(w, es).v; Weights(v.shares, v.totalShares, us)
  {
    VaultShares.SharesAlwaysAddUp(w, us, es);
  }

  // ---- one snapshot ----

  predicate Capped(s: State) {
    forall i :: 0 <= i < |s.tiers| ==> s.tiers[i][1] <= MAX_TIER_BPS
  }

  function HeldBy(shares: Ledger, list: seq<Address>): nat {
    if list == [] then 0 else HeldBy(shares, list[..|list| - 1]) + At(shares, list[|list| - 1])
  }

  /** Distinct holders of a group hold no more than the group. */
  lemma {:induction false} HeldWithinSum(shares: Ledger, list: seq<Address>, us: set<Address>)
    requires Distinct(list) && forall a :: a in list ==> a in us
    ensures HeldBy(shares, list) <= Sum(us, Of(shares))
  {
    if list == [] {
      SumNonNegative(us, Of(shares));
    } else {
      var a, rest := list[|list| - 1], list[..|list| - 1];
      forall b | b in rest ensures b in us - {a} {
        var i :| 0 <= i < |rest| && rest[i] == b;
        assert list[i] != a;
      }
      HeldWithinSum(shares, rest, us - {a});
      SumSplit(us, Of(shares), a);
    }
  }

  lemma RebateBound(shares: nat, feeDelta: nat, bps: nat, totalShares: nat)
    requires totalShares > 0 && bps <= MAX_TIER_BPS
    ensures BPS * (Rebate(shares, feeDelta, bps, totalShares) * totalShares) <= MAX_TIER_BPS * (feeDelta * shares)
  {
    var x: nat := shares * feeDelta;
    var r := Rebate(shares, feeDelta, bps, totalShares);
    assert r * (totalShares * BPS) <= x * bps;
    assert x * bps <= x * MAX_TIER_BPS;
    assert r * (totalShares * BPS) == BPS * (r * totalShares);
  }

  /** A rebate is the floor of the staker's share of the fee pool scaled by its tier. */
  lemma RebateIsFloor(shares: nat, feeDelta: nat, bps: nat, totalShares: nat)
    requires totalShares > 0
    ensures var r := Rebate(shares, feeDelta, bps, totalShares);
            r * (totalShares * BPS) <= shares * feeDelta * bps < (r + 1) * (totalShares * BPS)
  {
  }

  lemma RebateForBound(s: State, a: Address, shares: Ledger, totalShares: nat, feeDelta: nat)
    requires totalShares > 0 && Capped(s)
    ensures BPS * (RebateFor(s, a, shares, totalShares, feeDelta) * totalShares) <= MAX_TIER_BPS * (feeDelta * At(shares, a))
  {
    hide Rebate;
    BestBpsCapped(s.tiers, At(s.stakedBy, a));
    RebateBound(At(shares, a), feeDelta, TierBpsOf(s, a), totalShares);
  }

  lemma {:induction false} AccrualBound(s: State, list: seq<Address>, shares: Ledger, totalShares: nat, feeDelta: nat)
    requires totalShares > 0 && Capped(s)
    ensures BPS * (Accrual(s, list, shares, totalShares, feeDelta) * totalShares)
            <= MAX_TIER_BPS * (feeDelta * HeldBy(shares, list))
  {
    if list != [] {
      var a, rest := list[|list| - 1], list[..|list| - 1];
      hide RebateFor;
      AccrualBound(s, rest, shares, totalShares, feeDelta);
      RebateForBound(s, a, shares, totalShares, feeDelta);
      Spread(Accrual(s, rest, shares, totalShares, feeDelta), RebateFor(s, a, shares, totalShares, feeDelta), totalShares);
      Spread(HeldBy(shares, rest), At(shares, a), feeDelta);
    }
  }

  lemma Spread(x: int, y: int, k: int)
    ensures (x + y) * k == x * k + y * k
    ensures k * (x + y) == k * x + k * y
  {
  }

  /** One snapshot accrues at most the capped share of the fee delta. */
  lemma SnapshotWithinCap(s: State, shares: Ledger, totalShares: nat, feeDelta: nat, us: set<Address>)
    requires totalShares > 0 && Capped(s) && Weights(shares, totalShares, us)
    requires Distinct(s.stakerList) && forall a :: a in s.stakerList ==> a in us
    ensures BPS * Accrual(s, s.stakerList, shares, totalShares, feeDelta) <= MAX_TIER_BPS * feeDelta
  {
    hide Accrual;
    var total := Accrual(s, s.stakerList, shares, totalShares, feeDelta);
    AccrualBound(s, s.stakerList, shares, totalShares, feeDelta);
    HeldWithinSum(shares, s.stakerList, us);
    FitsTotal(total, feeDelta, HeldBy(shares, s.stakerList), totalShares);
  }

  lemma FitsTotal(accrual: nat, feeDelta: nat, held: nat, totalShares: nat)
    requires totalShares > 0 && held <= totalShares
    requires BPS * (accrual * totalShares) <= MAX_TIER_BPS * (feeDelta * held)
    ensures BPS * accrual <= MAX_TIER_BPS * feeDelta
  {
    assert feeDelta * held <= feeDelta * totalShares;
    assert BPS * (accrual * totalShares) == (BPS * accrual) * totalShares;
    assert MAX_TIER_BPS * (feeDelta * totalShares) == (MAX_TIER_BPS * feeDelta) * totalShares;
    VaultMath.Cancel(BPS * accrual, MAX_TIER_BPS * feeDelta, totalShares);
  }

  /** Each listed staker's rebate grows by its own formula, everyone else's stays. */
  lemma {:induction false} AccrueLoopAdds(s: State, list: seq<Address>, shares: Ledger, totalShares: nat,
                                          feeDelta: nat, us: set<Address>)
    requires totalShares > 0 && Distinct(list) && forall a :: a in list ==> a in us
    ensures var r := AccrueLoop(s, list, shares, totalShares, feeDelta);
            && Sum(us, Of(r)) == Sum(us, Of(s.rebateOf)) + Accrual(s, list, shares, totalShares, feeDelta)
            && forall a: Address :: At(r, a) == At(s.rebateOf, a)
                 + (if a in list then RebateFor(s, a, shares, totalShares, feeDelta) else 0)
  {
    hide RebateFor, Sum, Of;
    if list != [] {
      var a, rest := list[|list| - 1], list[..|list| - 1];
      AccrueLoopAdds(s, rest, shares, totalShares, feeDelta, us);
      assert a !in rest;
      assert forall b :: b in list <==> b == a || b in rest;
      var sofar := AccrueLoop(s, rest, shares, totalShares, feeDelta);
      PutSum(us, sofar, a, At(sofar, a) + RebateFor(s, a, shares, totalShares, feeDelta));
    }
  }

  // ---- runs ----

  ghost predicate Sound(w: World, us: set<Address>) {
    && Capped(w.s)
    && Distinct(w.s.stakerList)
    && (forall a :: a in w.s.stakerList <==> a in w.s.isStaker)
    && w.s.isStaker <= us
    && BPS * w.accrued <= MAX_TIER_BPS * w.s.lastFeeSnapshot
    && w.claimed + Sum(us, Of(w.s.rebateOf)) == w.accrued
    && Sum(us, Of(w.s.stakedBy)) <= At(w.s.pyd, w.s.self)
  }

  lemma SnapshotSound(w: World, us: set<Address>, e: Event)
    requires Sound(w, us) && Admissible(w.s.self, us, e) && e.Act? && e.call.SnapshotHarvest?
    ensures Sound(Step(w, e), us)
  {
    hide Accrual, AccrueLoop, Sum, Of, Distinct, Weights;
    var shares, total := e.call.shares, e.call.totalShares;
    var bal := At(w.s.usdc, w.s.feeDistributor);
    if bal > w.s.lastFeeSnapshot && total > 0 {
      var feeDelta := bal - w.s.lastFeeSnapshot;
      SnapshotWithinCap(w.s, shares, total, feeDelta, us);
      AccrueLoopAdds(w.s, w.s.stakerList, shares, total, feeDelta, us);
    }
  }

  lemma ClaimSound(w: World, us: set<Address>, e: Event)
    requires Sound(w, us) && Admissible(w.s.self, us, e) && e.Act? && e.call.ClaimRebate?
    ensures Sound(Step(w, e), us)
  {
    hide Sum, Of;
    PutSum(us, w.s.rebateOf, e.sender, At(w.s.rebateOf, e.sender) - Claimable(w.s, e.sender));
  }

  lemma StakeSound(w: World, us: set<Address>, e: Event)
    requires Sound(w, us) && Admissible(w.s.self, us, e) && e.Act? && (e.call.Stake? || e.call.Unstake? || e.call.Exit?)
    ensures Sound(Step(w, e), us)
  {
    hide Sum, Of;
    var x := Step(w, e);
    if Apply(w.s, e.sender, e.call).Some? {
      PutSum(us, w.s.stakedBy, e.sender, At(x.s.stakedBy, e.sender));
    }
  }

  lemma TiersSound(w: World, us: set<Address>, e: Event)
    requires Sound(w, us) && e.Act? && e.call.SetTiers?
    ensures Sound(Step(w, e), us)
  {
    hide Sum, Of;
    var x := Step(w, e);
    if GoodTiers(e.call.rows) && e.sender == w.s.owner {
      forall i | 0 <= i < |x.s.tiers| ensures x.s.tiers[i][1] <= MAX_TIER_BPS {
        assert x.s.tiers == e.call.rows && GoodRow(e.call.rows, i);
      }
    }
  }

  lemma StepSound(w: World, us: set<Address>, e: Event)
    requires Sound(w, us) && Admissible(w.s.self, us, e)
    ensures Sound(Step(w, e), us) && Step(w, e).s.self == w.s.self
  {
    match e
    case Outside(_, _, _) =>
    case Act(_, call) =>
      match call
      case SnapshotHarvest(_, _) => SnapshotSound(w, us, e);
      case ClaimRebate => ClaimSound(w, us, e);
      case SetTiers(_) => TiersSound(w, us, e);
      case _ => StakeSound(w, us, e);
  }

  lemma {:induction false} AlwaysSound(w: World, us: set<Address>, es: seq<Event>)
    requires Sound(w, us) && forall i :: 0 <= i < |es| ==> Admissible(w.s.self, us, es[i])
    ensures Sound(Run(w, es), us) && Run(w, es).s.self == w.s.self
  {
    hide Sound, Step;
    if es != [] {
      AlwaysSound(w, us, es[..|es| - 1]);
      StepSound(Run(w, es[..|es| - 1]), us, es[|es| - 1]);
    }
  }

  /** Over the contract's lifetime: what ever accrued is at most the cap's share of the highest fee balance seen,
    * claims and outstanding rebates add up to it, no staker is listed twice, and all stakes are held in PYD. */
  lemma LifetimeRebateBound(self: Address, owner: Address, feeDistributor: Address, pyd: Ledger, usdc: Ledger,
                            us: set<Address>, es: seq<Event>)
    requires forall i :: 0 <= i < |es| ==> Admissible(self, us, es[i])
    ensures var w := Run(World(Deployed(self, owner, feeDistributor, pyd, usdc), 0, 0), es);
            && BPS * (w.claimed + Sum(us, Of(w.s.rebateOf))) <= MAX_TIER_BPS * w.s.lastFeeSnapshot
            && w.claimed + Sum(us, Of(w.s.rebateOf)) == w.accrued
            && Distinct(w.s.stakerList)
            && Sum(us, Of(w.s.stakedBy)) <= At(w.s.pyd, self)
  {
    DeployedSound(self, owner, feeDistributor, pyd, usdc, us);
    AlwaysSound(World(Deployed(self, owner, feeDistributor, pyd, usdc), 0, 0), us, es);
  }

  lemma DeployedSound(self: Address, owner: Address, feeDistributor: Address, pyd: Ledger, usdc: Ledger,
                      us: set<Address>)
    ensures Sound(World(Deployed(self, owner, feeDistributor, pyd, usdc), 0, 0), us)
  {
    SumOfZeros(us);
    SumSame(us, Of(map[]), _ => 0);
  }

  lemma StakeIsHeld(w: World, us: set<Address>, a: Address)
    requires Sound(w, us) && a in us
    ensures At(w.s.stakedBy, a) <= At(w.s.pyd, w.s.self)
  {
    SumNonNegative(us, Of(w.s.stakedBy));
    assert Of(w.s.stakedBy)(a) <= Sum(us, Of(w.s.stakedBy));
  }

  /** Leaving never fails: a staker can always take the whole stake back. */
  lemma ExitAlwaysPaid(w: World, us: set<Address>, a: Address)
    requires Sound(w, us) && a in us
    ensures Apply(w.s, a, Exit).Some?
    ensures At(Apply(w.s, a, Exit).value.stakedBy, a) == 0
  {
    StakeIsHeld(w, us, a);
  }

  /** A snapshot is a no-op without fees above the last one; otherwise every listed staker's rebate grows by the
    * documented formula, once, and nobody else's moves. */
  lemma SnapshotAccrues(w: World, us: set<Address>, shares: Ledger, totalShares: nat, a: Address)
    requires Sound(w, us)
    ensures var bal := At(w.s.usdc, w.s.feeDistributor);
            var t := SnapshotSpec(w.s, shares, totalShares);
            if bal <= w.s.lastFeeSnapshot then t == w.s
            else
              && t.lastFeeSnapshot == bal
              && At(t.rebateOf, a) == At(w.s.rebateOf, a)
                 + (if totalShares > 0 && a in w.s.isStaker
                    then RebateFor(w.s, a, shares, totalShares, bal - w.s.lastFeeSnapshot) else 0)
  {
    hide RebateFor, Accrual, AccrueLoop, Sum, Of;
    var bal := At(w.s.usdc, w.s.feeDistributor);
    if bal > w.s.lastFeeSnapshot && totalShares > 0 {
      AccrueLoopAdds(w.s, w.s.stakerList, shares, totalShares, bal - w.s.lastFeeSnapshot, us);
    }
  }

  /** What `a` gained from `before` to `after` is the floor of its share of the fees, at tier `t`. */
  predicate GainIsFloor(before: Ledger, after: Ledger, a: Address, held: nat, totalShares: nat, feeDelta: nat, t: nat) {
    && At(before, a) <= At(after, a)
    && var g := At(after, a) - At(before, a);
       g * (totalShares * BPS) <= held * feeDelta * t < (g + 1) * (totalShares * BPS)
  }

  /** The same, down to the rows of the schedule: a listed staker gains the floor of its share of the new fees, scaled by
    * the largest discount among the rows its stake crosses. */
  lemma SnapshotPaysTier(w: World, us: set<Address>, shares: Ledger, totalShares: nat, a: Address, t: nat)
    requires Sound(w, us) && totalShares > 0 && w.s.lastFeeSnapshot < At(w.s.usdc, w.s.feeDistributor)
    requires a in w.s.isStaker && IsTier(w.s.tiers, At(w.s.stakedBy, a), t)
    ensures GainIsFloor(w.s.rebateOf, SnapshotSpec(w.s, shares, totalShares).rebateOf, a, At(shares, a), totalShares,
                        At(w.s.usdc, w.s.feeDistributor) - w.s.lastFeeSnapshot, t)
  {
    hide Sound, SnapshotSpec, Rebate;
    var feeDelta := At(w.s.usdc, w.s.feeDistributor) - w.s.lastFeeSnapshot;
    SnapshotAccrues(w, us, shares, totalShares, a);
    TierIsBestBps(w.s.tiers, At(w.s.stakedBy, a), t);
    if At(shares, a) > 0 && t > 0 {
      RebateIsFloor(At(shares, a), feeDelta, t, totalShares);
    } else {
      NoFees(At(shares, a), feeDelta, t);
    }
  }

  lemma NoFees(held: nat, feeDelta: nat, t: nat)
    requires held == 0 || t == 0
    ensures held * feeDelta * t == 0
  {
  }

  /** When staking, unstaking and leaving complete, and what they move between the caller and the contract: exactly the
    * stake, and nothing of anyone else's. */
  lemma StakesMove(s: State, sender: Address, call: Call, a: Address)
    requires sender != s.self && (call.Stake? || call.Unstake? || call.Exit?)
    ensures var o := Apply(s, sender, call);
            var staked := At(s.stakedBy, sender);
            var change: int := match call
                               case Stake(amount) => amount as int
                               case Unstake(amount) => 0 - (amount as int)
                               case _ => 0 - (staked as int);
            && (o.Some? <==> match call
                             case Stake(amount) => 0 < amount <= At(s.pyd, sender)
                             case Unstake(amount) => 0 < amount <= staked && amount <= At(s.pyd, s.self)
                             case _ => staked <= At(s.pyd, s.self))
            && (o.Some? ==>
                  && At(o.value.stakedBy, a) == At(s.stakedBy, a) + (if a == sender then change else 0)
                  && At(o.value.pyd, a) == At(s.pyd, a) - (if a == sender then change else 0)
                                                        + (if a == s.self then change else 0)
                  && o.value == s.(pyd := o.value.pyd, stakedBy := o.value.stakedBy, stakerList := o.value.stakerList,
                                   isStaker := o.value.isStaker))
  {
  }

  /** A claim completes exactly when something is accrued and the budget is not empty; it pays the smaller of the two
    * and keeps the rest accrued. */
  lemma ClaimPaysWhatExists(s: State, a: Address)
    requires a != s.self
    ensures Apply(s, a, ClaimRebate).Some? <==> At(s.rebateOf, a) > 0 && At(s.usdc, s.self) > 0
    ensures Apply(s, a, ClaimRebate).Some? ==>
              var t := Apply(s, a, ClaimRebate).value;
              var paid := At(t.usdc, a) - At(s.usdc, a);
              && paid + At(t.rebateOf, a) == At(s.rebateOf, a)
              && paid + At(t.usdc, s.self) == At(s.usdc, s.self)
              && (At(t.rebateOf, a) == 0 || At(t.usdc, s.self) == 0)
  {
  }
}
