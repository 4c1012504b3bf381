/** The PYDFeeDiscount contract: storage fields updated in the contract's order, the loops over tiers and stakers, every
  * entry point proved against its specification and against the rebates and stakes taken down since deployment. */
module FeeDiscountContract {
  import opened Common
  import opened FeeDiscount
  import opened FeeDiscountRuns

  class PYDFeeDiscount {
    const self: Address
    const owner: Address
    const feeDistributor: Address
    var pyd: Ledger
    var usdc: Ledger
    var tiers: seq<Row>
    var lastFeeSnapshot: nat
    var rebateOf: Ledger
    var stakedBy: Ledger
    var stakerList: seq<Address>
    var isStaker: set<Address>
    ghost const accounts: set<Address> // whoever may call
    ghost var accrued: nat // all rebates ever accrued
    ghost var claimed: nat // all rebates ever claimed

    constructor (self: Address, owner: Address, feeDistributor: Address, pyd: Ledger, usdc: Ledger,
                 ghost accounts: set<Address>)
      ensures Abs() == Deployed(self, owner, feeDistributor, pyd, usdc)
      ensures this.accounts == accounts && accrued == claimed == 0 && Accounted()
    {
      this.self, this.owner, this.feeDistributor, this.pyd, this.usdc := self, owner, feeDistributor, pyd, usdc;
      tiers, lastFeeSnapshot, rebateOf, stakedBy, stakerList, isStaker := DEFAULT_TIERS, 0, map[], map[], [], {};
      this.accounts, accrued, claimed := accounts, 0, 0;
      new;
      DeployedSound(self, owner, feeDistributor, pyd, usdc, accounts);
    }

    function Abs(): State
      reads this
    {
      State(self, owner, feeDistributor, pyd, usdc, tiers, lastFeeSnapshot, rebateOf, stakedBy, stakerList, isStaker)
    }

    /** The invariant of every run: rebates add up within the cap, stakers are listed once, stakes are held. */
    ghost predicate Accounted()
      reads this
    {
      Sound(World(Abs(), accrued, claimed), accounts)
    }

    /** Take down what a completed call accrued or claimed. */
    ghost method Account(before: State, sender: Address, call: Call)
      requires before.self == self && Apply(before, sender, call) == Some(Abs())
      modifies this`accrued, this`claimed
      ensures World(Abs(), accrued, claimed) == Step(World(before, old(accrued), old(claimed)), Act(sender, call))
      ensures Sound(World(before, old(accrued), old(claimed)), accounts) && Admissible(self, accounts, Act(sender, call))
              ==> Accounted()
    {
      hide Apply, Sound, Accrued, Claimable, Admissible;
      var w := World(before, accrued, claimed);
      if Sound(w, accounts) && Admissible(self, accounts, Act(sender, call)) {
        StepSound(w, accounts, Act(sender, call));
      }
      var x := Step(w, Act(sender, call));
      accrued, claimed := x.accrued, x.claimed;
    }

    method DoSetTiers(sender: Address, rows: seq<seq<nat>>) returns (ok: bool)
      modifies this
      ensures Ends(Apply(old(Abs()), sender, SetTiers(rows)), old(Abs()), ok, Abs())
      ensures old(Accounted()) && sender in accounts && sender != self ==> Accounted()
    {
      hide Sound;
      if sender != owner || rows == [] { return false; }
      ghost var before := Abs();
      var prevThreshold := 0;
      for i := 0 to |rows|
        invariant forall k :: 0 <= k < i ==> GoodRow(rows, k)
        invariant prevThreshold == PrevThreshold(rows, i)
      {
        assert GoodTiers(rows) ==> GoodRow(rows, i);
        if |rows[i]| < 2 || rows[i][0] <= prevThreshold || rows[i][1] > MAX_TIER_BPS { return false; }
        prevThreshold := rows[i][0];
      }
      StoreRows(rows);
      Account(before, sender, SetTiers(rows));
      return true;
    }

    method StoreRows(rows: seq<seq<nat>>)
      requires GoodTiers(rows)
      modifies this`tiers
      ensures Abs() == old(Abs()).(tiers := Rows(rows))
    {
      tiers := [];
      for i := 0 to |rows|
        invariant tiers == rows[..i]
        invariant Abs() == old(Abs()).(tiers := tiers)
      {
        assert GoodRow(rows, i);
        tiers := tiers + [rows[i]];
      }
    }

    method DoTierBpsOf(user: Address) returns (best: nat)
      ensures best == TierBpsOf(Abs(), user)
      ensures forall i :: 0 <= i < |tiers| && At(stakedBy, user) >= tiers[i][0] ==> tiers[i][1] <= best
    {
      var staked := At(stakedBy, user);
      best := 0;
      for i := 0 to |tiers|
        invariant best == BestBps(tiers[..i], staked)
      {
        assert tiers[..i + 1][..i] == tiers[..i];
        if staked >= tiers[i][0] && tiers[i][1] > best {
          best := tiers[i][1];
        }
      }
      assert tiers[..|tiers|] == tiers;
      BestBpsIsMaximum(tiers, staked);
    }

    /** PYD comes in for stake; the tier does not fall and the staker is listed. */
    method DoStake(sender: Address, amount: nat) returns (ok: bool)
      modifies this
      ensures Ends(Apply(old(Abs()), sender, Stake(amount)), old(Abs()), ok, Abs())
      ensures old(Accounted()) && sender in accounts && sender != self ==> Accounted()
      ensures ok <==> 0 < amount <= old(At(pyd, sender))
      ensures ok ==> At(stakedBy, sender) == old(At(stakedBy, sender)) + amount
      ensures ok && sender != self ==> At(pyd, self) == old(At(pyd, self)) + amount
      ensures ok ==> sender in isStaker
      ensures old(TierBpsOf(Abs(), sender)) <= TierBpsOf(Abs(), sender)
      ensures accrued == old(accrued) && claimed == old(claimed)
    {
      hide Sound, Transfer, At;
      if amount == 0 { return false; }
      ghost var before := Abs();
      TransferMoves(pyd, sender, self, amount);
      var moved := Transfer(pyd, sender, self, amount);
      if moved.None? { return false; }
      pyd := moved.value;
      stakedBy := Put(stakedBy, sender, At(stakedBy, sender) + amount);
      Enlist(sender);
      Account(before, sender, Stake(amount));
      BestBpsMonotone(tiers, At(before.stakedBy, sender), At(stakedBy, sender));
      return true;
    }

    /** Nobody is listed twice. */
    method Enlist(sender: Address)
      modifies this`stakerList, this`isStaker
      ensures isStaker == old(isStaker) + {sender}
      ensures stakerList == if sender in old(isStaker) then old(stakerList) else old(stakerList) + [sender]
    {
      if sender !in isStaker {
        isStaker := isStaker + {sender};
        stakerList := stakerList + [sender];
      } else {
        assert isStaker + {sender} == isStaker;
      }
    }

    /** Stake is lowered before the PYD goes back; the tier does not rise. */
    method DoUnstake(sender: Address, amount: nat) returns (ok: bool)
      modifies this
      ensures Ends(Apply(old(Abs()), sender, Unstake(amount)), old(Abs()), ok, Abs())
      ensures old(Accounted()) && sender in accounts && sender != self ==> Accounted()
      ensures old(Accounted()) && sender in accounts ==> (ok <==> 0 < amount <= old(At(stakedBy, sender)))
      ensures ok && sender != self ==> Returned(sender, amount)
      ensures TierBpsOf(Abs(), sender) <= old(TierBpsOf(Abs(), sender))
    {
      hide Sound;
      if amount == 0 || amount > At(stakedBy, sender) { return false; }
      ghost var before := Abs();
      ok := ReturnPYD(sender, amount);
      if ok {
        Account(before, sender, Unstake(amount));
        BestBpsMonotone(tiers, At(stakedBy, sender), At(before.stakedBy, sender));
      }
    }

    /** The whole stake goes back; the rebates and the listing stay. */
    method DoExit(sender: Address) returns (ok: bool)
      modifies this
      ensures Ends(Apply(old(Abs()), sender, Exit), old(Abs()), ok, Abs())
      ensures old(Accounted()) && sender in accounts && sender != self ==> Accounted()
      ensures old(Accounted()) && sender in accounts ==> ok
      ensures ok && sender != self ==> At(stakedBy, sender) == 0 && Returned(sender, old(At(stakedBy, sender)))
      ensures rebateOf == old(rebateOf) && stakerList == old(stakerList)
    {
      hide Sound;
      ghost var before := Abs();
      var staked := At(stakedBy, sender);
      if staked > 0 {
        ok := ReturnPYD(sender, staked);
        if !ok { return false; }
      }
      Account(before, sender, Exit);
      return true;
    }

    /** PYD that went back to a staker came out of its stake. */
    twostate predicate Returned(sender: Address, amount: nat)
      reads this
    {
      && At(pyd, sender) == At(old(pyd), sender) + amount
      && At(pyd, self) == At(old(pyd), self) - amount
      && At(stakedBy, sender) == At(old(stakedBy), sender) - amount
    }

    method ReturnPYD(sender: Address, amount: nat) returns (ok: bool)
      requires amount <= At(stakedBy, sender)
      modifies this`pyd, this`stakedBy
      ensures Ends(ReturnStake(old(Abs()), sender, amount), old(Abs()), ok, Abs())
      ensures ok && sender != self ==> Returned(sender, amount)
      ensures old(Accounted()) && sender in accounts ==> ok
    {
      hide Sum, Of;
      ghost var before := Abs();
      if Accounted() && sender in accounts { StakeIsHeld(World(Abs(), accrued, claimed), accounts, sender); }
      var stakes := stakedBy;
      stakedBy := Put(stakedBy, sender, At(stakedBy, sender) - amount);
      var moved := Transfer(pyd, self, sender, amount);
      if moved.None? {
        stakedBy := stakes; // the revert
        return false;
      }
      pyd := moved.value;
      return true;
    }

    /** The loop over the stakers accrues what the formula says for each. */
    method DoSnapshotHarvest(sender: Address, shares: Ledger, totalShares: nat) returns (ok: bool)
      modifies this
      ensures Ends(Apply(old(Abs()), sender, SnapshotHarvest(shares, totalShares)), old(Abs()), ok, Abs())
      ensures old(Accounted()) && Admissible(self, accounts, Act(sender, SnapshotHarvest(shares, totalShares)))
              ==> Accounted()
      ensures old(Accounted()) && totalShares > 0 && old(lastFeeSnapshot) < At(usdc, feeDistributor) ==>
                forall a, t :: a in isStaker && IsTier(tiers, At(stakedBy, a), t) ==>
                  GainIsFloor(old(rebateOf), rebateOf, a, At(shares, a), totalShares,
                              At(usdc, feeDistributor) - old(lastFeeSnapshot), t)
    {
      hide Sound, Rebate, AccrueLoop, Accrual, Weights;
      ghost var before := Abs();
      var fdBal := At(usdc, feeDistributor);
      if fdBal > lastFeeSnapshot {
        var feeDelta := fdBal - lastFeeSnapshot;
        lastFeeSnapshot := fdBal;
        if totalShares > 0 { AccrueAll(before, shares, totalShares, feeDelta); }
      }
      if old(Accounted()) && totalShares > 0 && before.lastFeeSnapshot < fdBal {
        forall a, t | a in isStaker && IsTier(tiers, At(stakedBy, a), t)
          ensures GainIsFloor(before.rebateOf, rebateOf, a, At(shares, a), totalShares, fdBal - before.lastFeeSnapshot, t)
        {
          SnapshotPaysTier(World(before, accrued, claimed), accounts, shares, totalShares, a, t);
        }
      }
      Account(before, sender, SnapshotHarvest(shares, totalShares));
      return true;
    }

    method AccrueAll(ghost s: State, shares: Ledger, totalShares: nat, feeDelta: nat)
      requires totalShares > 0 && Abs() == s.(lastFeeSnapshot := lastFeeSnapshot)
      modifies this`rebateOf
      ensures rebateOf == AccrueLoop(s, stakerList, shares, totalShares, feeDelta)
    {
      hide RebateFor, AccrueLoop;
      AccrueNobody(s, shares, totalShares, feeDelta);
      for i := 0 to |stakerList|
        invariant Abs() == s.(lastFeeSnapshot := lastFeeSnapshot, rebateOf := rebateOf)
        invariant rebateOf == AccrueLoop(s, stakerList[..i], shares, totalShares, feeDelta)
      {
        AccrueOneMore(s, i, shares, totalShares, feeDelta);
        AccrueFor(s, stakerList[i], shares, totalShares, feeDelta);
      }
      assert stakerList[..|stakerList|] == stakerList;
    }

    lemma AccrueNobody(s: State, shares: Ledger, totalShares: nat, feeDelta: nat)
      requires totalShares > 0
      ensures AccrueLoop(s, s.stakerList[..0], shares, totalShares, feeDelta) == s.rebateOf
    {
    }

    /** One turn of the loop; the rebate depends on tier and stake, which it leaves alone. */
    method AccrueFor(ghost s: State, staker: Address, shares: Ledger, totalShares: nat, feeDelta: nat)
      requires totalShares > 0 && Abs() == s.(lastFeeSnapshot := lastFeeSnapshot, rebateOf := rebateOf)
      modifies this`rebateOf
      ensures var rebate := RebateFor(s, staker, shares, totalShares, feeDelta);
              rebateOf == if rebate == 0 then old(rebateOf)
                          else Put(old(rebateOf), staker, At(old(rebateOf), staker) + rebate)
    {
      hide Rebate;
      var held := At(shares, staker);
      if held == 0 { return; }
      var tierBps := DoTierBpsOf(staker);
      if tierBps == 0 { return; }
      var rebate := Rebate(held, feeDelta, tierBps, totalShares);
      if rebate > 0 {
        rebateOf := Put(rebateOf, staker, At(rebateOf, staker) + rebate);
      }
    }

    /** What is paid comes off the rebate; it is all of it or all of the budget. */
    method DoClaimRebate(sender: Address) returns (ok: bool)
      modifies this
      ensures Ends(Apply(old(Abs()), sender, ClaimRebate), old(Abs()), ok, Abs())
      ensures old(Accounted()) && sender in accounts && sender != self ==> Accounted()
      ensures ok <==> old(At(rebateOf, sender)) > 0 && old(At(usdc, self)) > 0
      ensures claimed + At(rebateOf, sender) == old(claimed + At(rebateOf, sender)) && accrued == old(accrued)
      ensures ok && sender != self ==>
                && At(usdc, sender) - old(At(usdc, sender)) == claimed - old(claimed)
                && (At(rebateOf, sender) == 0 || At(usdc, self) == 0)
    {
      hide Sound;
      ghost var before := Abs();
      var amount := At(rebateOf, sender);
      if amount == 0 { return false; }
      var budget := At(usdc, self);
      if amount > budget { amount := budget; }
      if amount == 0 { return false; }
      rebateOf := Put(rebateOf, sender, At(rebateOf, sender) - amount);
      usdc := Transfer(usdc, self, sender, amount).value;
      Account(before, sender, ClaimRebate);
      return true;
    }
  }
}
