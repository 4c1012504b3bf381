/** What one call to PYDStaking can and cannot do to accrued rewards. */
module StakingSafety {
  import opened Common
  import opened Staking

  /** The two accounting internals every staker call runs first. */
  function Sync(s: State, a: Address, now: nat): (r: State)
    requires PaidUpToStored(s)
    ensures PaidUpToStored(r)
  {
    UpdateReward(UpdatePeriod(s, now), a, now)
  }

  /** Banking the expired window and then the current one never accrues the same second twice. */
  lemma SyncAccruesOnce(s: State, a: Address, now: nat)
    requires PaidUpToStored(s)
    ensures var u := Sync(s, a, now);
            && u.rewardPerTokenStored == RewardPerToken(s, now)
            && u.lastUpdateTime == LastT(s, now)
            && u.rewardRate == (if now >= s.periodFinish && s.periodFinish > 0 then 0 else s.rewardRate)
            && At(u.rewards, a) == Earned(s, a, now)
            && At(u.userRewardPerTokenPaid, a) == u.rewardPerTokenStored
  {
    hide Accrual, Share;
    assert LastT(UpdatePeriod(s, now), now) == LastT(s, now);
  }

  /** A second update of the period at the same timestamp changes nothing. */
  lemma UpdatePeriodIdempotent(s: State, now: nat)
    ensures UpdatePeriod(UpdatePeriod(s, now), now) == UpdatePeriod(s, now)
  {
  }

  lemma SyncIdempotent(s: State, a: Address, now: nat)
    requires PaidUpToStored(s)
    ensures Sync(Sync(s, a, now), a, now) == Sync(s, a, now)
  {
    hide Accrual, Share, Earned;
    var u := Sync(s, a, now);
    SyncAccruesOnce(s, a, now);
    NothingNew(At(s.stakeAmount, a), u.rewardPerTokenStored);
    assert UpdatePeriod(u, now) == u;
    assert u.rewards[a := At(u.rewards, a)] == u.rewards;
  }

  lemma NothingNew(stake: nat, mark: nat)
    ensures Share(stake, mark, mark) == 0
  {
    assert stake * (mark - mark) == 0;
  }

  /** Syncing one account leaves what every account has earned as it was. */
  lemma SyncKeepsEarned(s: State, a: Address, now: nat, b: Address)
    requires PaidUpToStored(s)
    ensures Earned(Sync(s, a, now), b, now) == Earned(s, b, now)
  {
    SyncAccruesOnce(s, a, now);
    NothingNew(At(s.stakeAmount, b), RewardPerToken(s, now));
    hide Accrual, Share;
  }

  /** Accrued up to `now`, with account `a` marked as paid to that point. */
  ghost predicate Synced(u: State, a: Address, now: nat) {
    PaidUpToStored(u) && LastT(u, now) <= u.lastUpdateTime && At(u.userRewardPerTokenPaid, a) == u.rewardPerTokenStored
  }

  /** Once an account is synced, its stake and the total may change without touching anyone's rewards. */
  lemma StakeChangeKeepsEarned(u: State, v: State, a: Address, now: nat, b: Address)
    requires Synced(u, a, now)
    requires v == u.(pyd := v.pyd, stakeAmount := v.stakeAmount, totalSupply := v.totalSupply)
    requires forall c: Address :: c != a ==> At(v.stakeAmount, c) == At(u.stakeAmount, c)
    ensures Synced(v, a, now) && Earned(v, b, now) == Earned(u, b, now)
  {
    NothingNew(At(u.stakeAmount, a), u.rewardPerTokenStored);
    NothingNew(At(v.stakeAmount, a), u.rewardPerTokenStored);
    hide Accrual, Share;
  }

  lemma PayingTakesAllEarned(u: State, a: Address, now: nat, b: Address)
    requires Synced(u, a, now)
    requires PayReward(u, a).Done?
    ensures var o := PayReward(u, a);
            && Synced(o.s, a, now)
            && o.reward == Earned(u, a, now)
            && Earned(o.s, b, now) == if b == a then 0 else Earned(u, b, now)
  {
    NothingNew(At(u.stakeAmount, a), u.rewardPerTokenStored);
    hide Accrual, Share;
  }

  /** Funding banks what has accrued before it moves the window. */
  lemma FundingKeepsEarned(s: State, now: nat, sender: Address, amount: nat, duration: nat, b: Address)
    requires PaidUpToStored(s)
    requires FundRewardsSpec(s, now, sender, amount, duration).Done?
    ensures Earned(FundRewardsSpec(s, now, sender, amount, duration).s, b, now) == Earned(s, b, now)
  {
    hide Accrual, Share, FundedRate;
    assert LastT(UpdatePeriod(s, now), now) == LastT(s, now);
  }

  predicate TakesReward(call: Call) {
    call.GetReward? || call.Exit?
  }

  /** No completed call moves what any account has earned at that timestamp, except that the caller of
    * getReward or exit is paid exactly that amount and is left with zero. */
  lemma EarnedUntouchedByOthers(s: State, now: nat, sender: Address, call: Call, b: Address)
    requires PaidUpToStored(s)
    requires Apply(s, now, sender, call).Done?
    ensures var o := Apply(s, now, sender, call);
            if b == sender && TakesReward(call)
            then Earned(o.s, b, now) == 0 && o.reward == Earned(s, b, now)
            else Earned(o.s, b, now) == Earned(s, b, now)
    ensures TakesReward(call) || Apply(s, now, sender, call).reward == 0
  {
    SyncAccruesOnce(s, sender, now);
    SyncKeepsEarned(s, sender, now, b);
    var u := Sync(s, sender, now);
    hide Accrual, Share;
    match call {
      case FundRewards(_, _) =>
        FundingKeepsEarned(s, now, sender, call.amount, call.duration, b);
      case Stake(_) =>
        StakeChangeKeepsEarned(u, Apply(s, now, sender, call).s, sender, now, b);
      case Withdraw(_) =>
        StakeChangeKeepsEarned(u, Apply(s, now, sender, call).s, sender, now, b);
      case GetReward =>
        PayingTakesAllEarned(u, sender, now, b);
      case Exit =>
        var w := ReturnStake(u, sender, At(u.stakeAmount, sender));
        if At(u.stakeAmount, sender) > 0 {
          StakeChangeKeepsEarned(u, w.s, sender, now, b);
          StakeChangeKeepsEarned(u, w.s, sender, now, sender);
          PayingTakesAllEarned(w.s, sender, now, b);
        } else {
          PayingTakesAllEarned(u, sender, now, b);
        }
    }
  }

  // ---- what each call moves, and when it completes ----

  /** The PYD a completed call brings its caller. */
  function Gain(s: State, now: nat, sender: Address, call: Call): int
    requires PaidUpToStored(s)
  {
    match call
    case FundRewards(amount, _) => 0 - (amount as int)
    case Stake(amount) => 0 - (amount as int)
    case Withdraw(amount) => amount
    case GetReward => Earned(s, sender, now)
    case Exit => At(s.stakeAmount, sender) + Earned(s, sender, now)
  }

  /** PYD moves between the caller and the contract, and nowhere else. */
  lemma CallMovesPYD(s: State, now: nat, sender: Address, call: Call, a: Address)
    requires PaidUpToStored(s) && sender != s.self
    ensures var o := Apply(s, now, sender, call);
            var gain := Gain(s, now, sender, call);
            o.Done? ==> At(o.s.pyd, a) == At(s.pyd, a) + (if a == sender then gain else if a == s.self then 0 - gain else 0)
  {
    hide Earned, Accrual, Share, RewardPerToken, LastT, OpenWindow, UpdatePeriod, UpdateReward, Transfer;
    SyncAccruesOnce(s, sender, now);
    var u := Sync(s, sender, now);
    SyncKeepsTokens(s, sender, now);
    match call {
      case FundRewards(amount, _) => TransferMoves(s.pyd, sender, s.self, amount);
      case Stake(amount) => TransferMoves(s.pyd, sender, s.self, amount);
      case Withdraw(amount) => TransferMoves(s.pyd, s.self, sender, amount);
      case GetReward => TransferMoves(s.pyd, s.self, sender, At(u.rewards, sender));
      case Exit =>
        var amount := At(s.stakeAmount, sender);
        if amount > 0 {
          TransferMoves(s.pyd, s.self, sender, amount);
          if ReturnStake(u, sender, amount).Done? {
            TransferMoves(ReturnStake(u, sender, amount).s.pyd, s.self, sender, At(u.rewards, sender));
          }
        } else {
          TransferMoves(s.pyd, s.self, sender, At(u.rewards, sender));
        }
    }
  }

  lemma SyncKeepsTokens(s: State, a: Address, now: nat)
    requires PaidUpToStored(s)
    ensures var u := Sync(s, a, now);
            u.pyd == s.pyd && u.self == s.self && u.stakeAmount == s.stakeAmount && u.totalSupply == s.totalSupply
  {
  }

  /** Funding completes exactly for the owner, with something to pay over some time and the PYD to pay it; staking exactly
    * for something the caller has. The stake of the caller, and of nobody else, follows. */
  lemma DepositsCompleteIff(s: State, now: nat, sender: Address, amount: nat, duration: nat)
    requires PaidUpToStored(s)
    ensures Apply(s, now, sender, FundRewards(amount, duration)).Done? <==>
              sender == s.owner && amount > 0 && duration > 0 && amount <= At(s.pyd, sender)
    ensures Apply(s, now, sender, Stake(amount)).Done? <==> 0 < amount <= At(s.pyd, sender)
  {
    hide Earned, Accrual, Share, RewardPerToken, LastT, OpenWindow, UpdatePeriod, UpdateReward;
    SyncKeepsTokens(s, sender, now);
  }

  /** The stakes after a completed call, and what is left unpaid to the caller. */
  lemma CallMovesStake(s: State, now: nat, sender: Address, call: Call, a: Address)
    requires PaidUpToStored(s) && Apply(s, now, sender, call).Done?
    ensures var v := Apply(s, now, sender, call).s;
            var change := match call
                          case Stake(amount) => amount as int
                          case Withdraw(amount) => 0 - (amount as int)
                          case Exit => 0 - (At(s.stakeAmount, sender) as int)
                          case _ => 0;
            && At(v.stakeAmount, a) == At(s.stakeAmount, a) + (if a == sender then change else 0)
            && v.totalSupply == s.totalSupply + change
            && (TakesReward(call) ==> At(v.rewards, sender) == 0)
            && (!TakesReward(call) && !call.FundRewards? ==> At(v.rewards, sender) == Earned(s, sender, now))
  {
    hide Earned, Accrual, Share, RewardPerToken, LastT, OpenWindow, UpdatePeriod, UpdateReward, Transfer;
    SyncAccruesOnce(s, sender, now);
    SyncKeepsTokens(s, sender, now);
    if call.FundRewards? { WindowKeepsStakes(s, now, call.amount, call.duration); }
  }

  lemma WindowKeepsStakes(s: State, now: nat, amount: nat, duration: nat)
    requires duration > 0
    ensures var v := OpenWindow(s, now, amount, duration); v.stakeAmount == s.stakeAmount && v.totalSupply == s.totalSupply
  {
  }

  /** exit is withdraw of the whole stake followed by getReward at the same timestamp. */
  lemma ExitIsWithdrawThenGetReward(s: State, now: nat, sender: Address)
    requires PaidUpToStored(s)
    requires At(s.stakeAmount, sender) > 0
    ensures var w := Apply(s, now, sender, Withdraw(At(s.stakeAmount, sender)));
            Apply(s, now, sender, Exit) == if w.Reverted? then Reverted else Apply(w.s, now, sender, GetReward)
  {
    SyncAccruesOnce(s, sender, now);
    var u := Sync(s, sender, now);
    var w := ReturnStake(u, sender, At(s.stakeAmount, sender));
    if w.Done? {
      assert UpdatePeriod(w.s, now) == w.s;
      assert w.s.rewards[sender := At(w.s.rewards, sender)] == w.s.rewards;
      assert Sync(w.s, sender, now) == w.s;
    }
  }
}
