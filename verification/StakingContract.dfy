/** The PYDStaking contract: storage fields updated in the contract's order, every entry point proved against its
  * specification and against what was funded and claimed since deployment. */
module StakingContract {
  import opened Common
  import opened Staking
  import opened StakingSafety
  import opened StakingRuns
  import opened StakingSolvency

  class PYDStaking {
    const self: Address
    const owner: Address
    var pyd: Ledger
    var stakeAmount: Ledger
    var userRewardPerTokenPaid: Ledger
    var rewards: Ledger
    var totalSupply: nat
    var rewardRate: nat
    var rewardsDuration: nat
    var periodFinish: nat
    var lastUpdateTime: nat
    var rewardPerTokenStored: nat
    ghost const accounts: set<Address> // whoever may call
    ghost var clock: nat // the time of the last completed call
    ghost var funded: nat // all rewards ever funded
    ghost var claimed: Ledger // all rewards ever paid, by account

    constructor (self: Address, owner: Address, pyd: Ledger, now: nat, ghost accounts: set<Address>)
      ensures Abs() == Deployed(self, owner, pyd, now)
      ensures Valid() && Backed()
      ensures this.accounts == accounts && clock == now && funded == 0 && claimed == map[]
    {
      this.self, this.owner, this.pyd := self, owner, pyd;
      stakeAmount, userRewardPerTokenPaid, rewards, totalSupply := map[], map[], map[], 0;
      rewardRate, rewardsDuration, periodFinish, rewardPerTokenStored := 0, 0, 0, 0;
      lastUpdateTime := now;
      this.accounts, clock, funded, claimed := accounts, now, 0, map[];
      new;
      DeployedCovered(Abs(), now, accounts);
    }

    function Abs(): State
      reads this
    {
      State(self, owner, pyd, stakeAmount, userRewardPerTokenPaid, rewards, totalSupply, rewardRate,
            rewardsDuration, periodFinish, lastUpdateTime, rewardPerTokenStored)
    }

    ghost predicate Valid()
      reads this
    {
      PaidUpToStored(Abs())
    }

    /** The solvency invariant of every run: what is owed and still to be emitted was funded, and is held beside the
      * stakes. */
    ghost predicate Backed()
      reads this
    {
      CoveredAndHeld(Abs(), clock, claimed, funded, accounts)
    }

    /** A call by one of the accounts, no earlier than the last one. */
    ghost predicate Expected(sender: Address, now: nat)
      reads this
    {
      Backed() && clock <= now && sender in accounts && sender != self
    }

    /** What reaches account `a` when the contract pays `gain` to `sender`. */
    function Flow(sender: Address, gain: int, a: Address): int {
      if a == sender then gain else if a == self then 0 - gain else 0
    }

    /** PYD moved between the caller and the contract, and nowhere else. */
    ghost predicate PYDMoved(before: Ledger, sender: Address, gain: int)
      reads this
    {
      forall a: Address :: At(pyd, a) == At(before, a) + Flow(sender, gain, a)
    }

    /** Take down what a completed call funded or paid. */
    ghost method Account(before: State, now: nat, sender: Address, call: Call, reward: nat)
      requires PaidUpToStored(before) && before.self == self
      requires Apply(before, now, sender, call) == Done(Abs(), reward)
      modifies this`clock, this`funded, this`claimed
      ensures clock == now && claimed == Tally(old(claimed), sender, reward)
      ensures funded == old(funded) + (if call.FundRewards? then call.amount else 0)
      ensures (CoveredAndHeld(before, old(clock), old(claimed), old(funded), accounts)
               && old(clock) <= now && sender in accounts && sender != self) ==> Backed()
      ensures sender != self ==> PYDMoved(before.pyd, sender, Gain(before, now, sender, call))
    {
      hide Apply, CoveredAndHeld, Gain;
      if sender != self {
        forall a: Address ensures At(pyd, a) == At(before.pyd, a) + Flow(sender, Gain(before, now, sender, call), a) {
          CallMovesPYD(before, now, sender, call, a);
        }
      }
      if CoveredAndHeld(before, clock, claimed, funded, accounts) && clock <= now && sender in accounts && sender != self {
        LaterStillCovered(before, clock, now, claimed, funded, accounts);
        CallCoveredAndHeld(before, now, sender, call, claimed, funded, accounts);
      }
      clock, claimed := now, Tally(claimed, sender, reward);
      funded := funded + (if call.FundRewards? then call.amount else 0);
    }

    /** The state after a call: the new state of a completed one, the old state of a reverted one. */
    static ghost predicate Ends(o: Outcome, before: State, ok: bool, reward: nat, after: State) {
      match o
      case Reverted => !ok && reward == 0 && after == before
      case Done(s, r) => ok && reward == r && after == s
    }

    method Revert(s: State)
      requires s.self == self && s.owner == owner
      modifies this`pyd, this`stakeAmount, this`userRewardPerTokenPaid, this`rewards, this`totalSupply, this`rewardRate,
               this`rewardsDuration, this`periodFinish, this`lastUpdateTime, this`rewardPerTokenStored
      ensures Abs() == s
    {
      pyd, stakeAmount, userRewardPerTokenPaid, rewards := s.pyd, s.stakeAmount, s.userRewardPerTokenPaid, s.rewards;
      totalSupply, rewardRate, rewardsDuration := s.totalSupply, s.rewardRate, s.rewardsDuration;
      periodFinish, lastUpdateTime, rewardPerTokenStored := s.periodFinish, s.lastUpdateTime, s.rewardPerTokenStored;
    }

    /** Closing an expired window changes nothing that anyone has earned, at this timestamp or any later one. */
    method DoUpdatePeriod(now: nat)
      requires Valid()
      modifies this`rewardPerTokenStored, this`lastUpdateTime, this`rewardRate
      ensures Valid()
      ensures forall t: nat :: now <= t ==> RewardPerToken(Abs(), t) == old(RewardPerToken(Abs(), t))
      ensures forall a: Address, t: nat :: now <= t ==> Earned(Abs(), a, t) == old(Earned(Abs(), a, t))
      ensures now >= periodFinish > 0 ==> rewardRate == 0 && lastUpdateTime == periodFinish
      ensures Abs() == UpdatePeriod(old(Abs()), now)
    {
      hide Accrual, Share;
      if now >= periodFinish && periodFinish > 0 {
        rewardPerTokenStored := RewardPerToken(Abs(), now);
        lastUpdateTime := periodFinish;
        rewardRate := 0;
      }
    }

    method DoUpdateReward(account: Address, now: nat)
      requires Valid()
      modifies this`rewardPerTokenStored, this`lastUpdateTime, this`rewards, this`userRewardPerTokenPaid
      ensures Valid() && Abs() == UpdateReward(old(Abs()), account, now)
    {
      rewardPerTokenStored := RewardPerToken(Abs(), now);
      lastUpdateTime := LastT(Abs(), now);
      rewards := Put(rewards, account, At(rewards, account)
                 + Share(At(stakeAmount, account), At(userRewardPerTokenPaid, account), rewardPerTokenStored));
      userRewardPerTokenPaid := Put(userRewardPerTokenPaid, account, rewardPerTokenStored);
    }

    method DoOpenWindow(now: nat, amount: nat, duration: nat)
      requires Valid() && duration > 0
      modifies this`rewardPerTokenStored, this`lastUpdateTime, this`rewardRate, this`rewardsDuration, this`periodFinish
      ensures Abs() == OpenWindow(old(Abs()), now, amount, duration)
    {
      hide Earned, Accrual, Share, RewardPerToken, LastT, UpdatePeriod, Leftover;
      DoUpdatePeriod(now);
      rewardPerTokenStored := RewardPerToken(Abs(), now);
      if now >= periodFinish {
        rewardRate := amount / duration;
      } else {
        var leftover := Leftover(Abs(), now);
        rewardRate := (amount + leftover) / duration;
      }
      rewardsDuration := duration;
      periodFinish := now + duration;
      lastUpdateTime := now;
    }

    /** What every staker call begins with. */
    method DoSync(account: Address, now: nat)
      requires Valid()
      modifies this`rewardPerTokenStored, this`lastUpdateTime, this`rewardRate, this`rewards, this`userRewardPerTokenPaid
      ensures Valid() && Abs() == UpdateReward(UpdatePeriod(old(Abs()), now), account, now)
    {
      hide UpdateReward, UpdatePeriod;
      DoUpdatePeriod(now);
      DoUpdateReward(account, now);
    }

    /** Stake goes back, books before tokens. */
    method HandBack(sender: Address, amount: nat) returns (ok: bool)
      modifies this`stakeAmount, this`totalSupply, this`pyd
      ensures match ReturnStake(old(Abs()), sender, amount)
              case Reverted => !ok
              case Done(s, r) => ok && r == 0 && Abs() == s
    {
      if At(stakeAmount, sender) < amount || totalSupply < amount { return false; }
      stakeAmount := Put(stakeAmount, sender, At(stakeAmount, sender) - amount);
      totalSupply := totalSupply - amount;
      var moved := Transfer(pyd, self, sender, amount);
      if moved.None? { return false; }
      pyd := moved.value;
      return true;
    }

    /** The accrued reward is paid, books before tokens. */
    method PayOut(sender: Address) returns (ok: bool, reward: nat)
      modifies this`rewards, this`pyd
      ensures match PayReward(old(Abs()), sender)
              case Reverted => !ok && reward == 0
              case Done(s, r) => ok && reward == r && Abs() == s
    {
      reward := At(rewards, sender);
      if reward > 0 {
        rewards := Put(rewards, sender, 0);
        var moved := Transfer(pyd, self, sender, reward);
        if moved.None? { return false, 0; }
        pyd := moved.value;
      }
      return true, reward;
    }

    method DoFundRewards(sender: Address, now: nat, amount: nat, duration: nat) returns (ok: bool)
      requires Valid()
      modifies this
      ensures Valid()
      ensures Ends(Apply(old(Abs()), now, sender, FundRewards(amount, duration)), old(Abs()), ok, 0, Abs())
      ensures old(Expected(sender, now)) ==> Backed()
      ensures funded == old(funded) + (if ok then amount else 0) && claimed == old(claimed)
      ensures ok <==> sender == owner && amount > 0 && duration > 0 && amount <= old(At(pyd, sender))
      ensures ok && sender != self ==> PYDMoved(old(pyd), sender, 0 - (amount as int))
    {
      hide CoveredAndHeld, PYDMoved, OpenWindow;
      if sender != owner || amount == 0 || duration == 0 { return false; }
      var before := Abs();
      DoOpenWindow(now, amount, duration);
      var moved := Transfer(pyd, sender, self, amount);
      if moved.None? { Revert(before); return false; }
      pyd := moved.value;
      Account(before, now, sender, FundRewards(amount, duration), 0);
      return true;
    }

    method DoStake(sender: Address, now: nat, amount: nat) returns (ok: bool)
      requires Valid()
      modifies this
      ensures Valid()
      ensures Ends(Apply(old(Abs()), now, sender, Stake(amount)), old(Abs()), ok, 0, Abs())
      ensures ok <==> 0 < amount <= old(At(pyd, sender))
      ensures ok && sender != self ==> PYDMoved(old(pyd), sender, 0 - (amount as int))
      ensures old(Expected(sender, now)) ==> Backed()
      ensures claimed == old(claimed) && funded == old(funded)
    {
      hide CoveredAndHeld, PYDMoved, Earned, UpdatePeriod, UpdateReward, At;
      if amount == 0 { return false; }
      var before := Abs();
      DoSync(sender, now);
      var moved := Transfer(pyd, sender, self, amount);
      if moved.None? { Revert(before); return false; }
      pyd := moved.value;
      stakeAmount := Put(stakeAmount, sender, At(stakeAmount, sender) + amount);
      totalSupply := totalSupply + amount;
      Account(before, now, sender, Stake(amount), 0);
      return true;
    }

    method DoWithdraw(sender: Address, now: nat, amount: nat) returns (ok: bool)
      requires Valid()
      modifies this
      ensures Valid()
      ensures Ends(Apply(old(Abs()), now, sender, Withdraw(amount)), old(Abs()), ok, 0, Abs())
      ensures ok && sender != self ==> PYDMoved(old(pyd), sender, amount)
      ensures old(Expected(sender, now)) ==> Backed()
      ensures old(Expected(sender, now)) ==> (ok <==> 0 < amount <= old(At(stakeAmount, sender)))
      ensures claimed == old(claimed) && funded == old(funded)
    {
      hide CoveredAndHeld, PYDMoved, Earned, UpdatePeriod, UpdateReward, At, ReturnStake;
      if amount == 0 { return false; }
      var before := Abs();
      if Expected(sender, now) { PayoutsCovered(before, clock, now, sender, claimed, funded, accounts); }
      DoSync(sender, now);
      ok := HandBack(sender, amount);
      if !ok { Revert(before); return false; }
      Account(before, now, sender, Withdraw(amount), 0);
    }

    method DoGetReward(sender: Address, now: nat) returns (ok: bool, reward: nat)
      requires Valid()
      modifies this
      ensures Valid()
      ensures Ends(Apply(old(Abs()), now, sender, GetReward), old(Abs()), ok, reward, Abs())
      ensures ok ==> reward == old(Earned(Abs(), sender, now))
      ensures ok && sender != self ==> PYDMoved(old(pyd), sender, reward)
      ensures old(Expected(sender, now)) ==> Backed()
      ensures old(Expected(sender, now)) ==> ok
      ensures At(claimed, sender) == old(At(claimed, sender)) + reward && funded == old(funded)
    {
      hide CoveredAndHeld, PYDMoved, Earned, UpdatePeriod, UpdateReward, PayReward;
      var before := Abs();
      if Expected(sender, now) { PayoutsCovered(before, clock, now, sender, claimed, funded, accounts); }
      DoSync(sender, now);
      ok, reward := PayOut(sender);
      if !ok { Revert(before); return false, 0; }
      Account(before, now, sender, GetReward, reward);
      EarnedUntouchedByOthers(before, now, sender, GetReward, sender);
    }

    method DoExit(sender: Address, now: nat) returns (ok: bool, reward: nat)
      requires Valid()
      modifies this
      ensures Valid()
      ensures Ends(Apply(old(Abs()), now, sender, Exit), old(Abs()), ok, reward, Abs())
      ensures ok ==> reward == old(Earned(Abs(), sender, now))
      ensures ok && sender != self ==> PYDMoved(old(pyd), sender, old(At(stakeAmount, sender)) + reward)
      ensures old(Expected(sender, now)) ==> Backed()
      ensures old(Expected(sender, now)) ==> ok
      ensures At(claimed, sender) == old(At(claimed, sender)) + reward && funded == old(funded)
    {
      hide CoveredAndHeld, PYDMoved, Earned, UpdatePeriod, UpdateReward, PayReward, ReturnStake;
      var before := Abs();
      if Expected(sender, now) { PayoutsCovered(before, clock, now, sender, claimed, funded, accounts); }
      DoSync(sender, now);
      var amount := At(stakeAmount, sender);
      if amount > 0 {
        ok := HandBack(sender, amount);
        if !ok { Revert(before); return false, 0; }
      }
      ok, reward := PayOut(sender);
      if !ok { Revert(before); return false, 0; }
      Account(before, now, sender, Exit, reward);
      EarnedUntouchedByOthers(before, now, sender, Exit, sender);
    }
  }
}
