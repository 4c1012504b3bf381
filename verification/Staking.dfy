/** PYDStaking: staking with a lazily accumulated reward per staked token.
  *
  * The pure functions are the specification of the contract in StakingContract. */
module Staking {
  import opened Common

  const WAD: nat := 1_000_000_000_000_000_000

  datatype State = State(
    self: Address,
    owner: Address,
    pyd: Ledger,
    stakeAmount: Ledger,
    userRewardPerTokenPaid: Ledger,
    rewards: Ledger,
    totalSupply: nat,
    rewardRate: nat,
    rewardsDuration: nat,
    periodFinish: nat,
    lastUpdateTime: nat,
    rewardPerTokenStored: nat)

  function Deployed(self: Address, owner: Address, pyd: Ledger, now: nat): State {
    State(self, owner, pyd, map[], map[], map[], 0, 0, 0, 0, now, 0)
  }

  /** No account has been paid up to a mark above the stored one, so the subtraction in
    * `Owed` cannot underflow. */
  ghost predicate PaidUpToStored(s: State) {
    forall a: Address :: At(s.userRewardPerTokenPaid, a) <= s.rewardPerTokenStored
  }

  // ---- views and internals ----

  function LastT(s: State, now: nat): nat {
    if now < s.periodFinish then now else s.periodFinish
  }

  /** What one staked token accrues in `elapsed` seconds, in units of 1 / WAD. */
  function Accrual(elapsed: nat, rate: nat, total: nat): nat
    requires total > 0
  {
    var emitted: nat := elapsed * rate;
    (emitted * WAD) / total
  }

  function RewardPerToken(s: State, now: nat): (r: nat)
    ensures s.rewardPerTokenStored <= r
  {
    if s.totalSupply == 0 || LastT(s, now) <= s.lastUpdateTime then s.rewardPerTokenStored
    else s.rewardPerTokenStored + Accrual(LastT(s, now) - s.lastUpdateTime, s.rewardRate, s.totalSupply)
  }

  function Share(stake: nat, from: nat, to: nat): nat
    requires from <= to
  {
    var product: nat := stake * (to - from);
    product / WAD
  }

  function Earned(s: State, a: Address, now: nat): nat
    requires PaidUpToStored(s)
  {
    At(s.rewards, a) + Share(At(s.stakeAmount, a), At(s.userRewardPerTokenPaid, a), RewardPerToken(s, now))
  }

  function UpdatePeriod(s: State, now: nat): (r: State)
    ensures PaidUpToStored(s) ==> PaidUpToStored(r)
  {
    if now >= s.periodFinish && s.periodFinish > 0 then
      s.(rewardPerTokenStored := RewardPerToken(s, now), lastUpdateTime := s.periodFinish, rewardRate := 0)
    else s
  }

  function UpdateReward(s: State, a: Address, now: nat): (r: State)
    requires PaidUpToStored(s)
    ensures PaidUpToStored(r)
  {
    var stored := RewardPerToken(s, now);
    s.(rewardPerTokenStored := stored,
       lastUpdateTime := LastT(s, now),
       rewards := Put(s.rewards, a, At(s.rewards, a) + Share(At(s.stakeAmount, a), At(s.userRewardPerTokenPaid, a), stored)),
       userRewardPerTokenPaid := Put(s.userRewardPerTokenPaid, a, stored))
  }

  // ---- entry points ----

  datatype Call =
    | FundRewards(amount: nat, duration: nat)
    | Stake(amount: nat)
    | Withdraw(amount: nat)
    | GetReward
    | Exit

  /** A reverted call, or the new state with the reward paid to the caller. */
  datatype Outcome = Reverted | Done(s: State, reward: nat)

  /** What the current window has not emitted yet. */
  function Leftover(s: State, now: nat): nat
    requires now < s.periodFinish
  {
    (s.periodFinish - now) * s.rewardRate
  }

  function FundedRate(s: State, now: nat, amount: nat, duration: nat): nat
    requires duration > 0
  {
    if now >= s.periodFinish then amount / duration
    else (amount + Leftover(s, now)) / duration
  }

  /** Bank what accrued at the old rate, then open a window for the amount and what the old one has left. */
  function OpenWindow(s: State, now: nat, amount: nat, duration: nat): State
    requires duration > 0
  {
    var p := UpdatePeriod(s, now);
    var q := p.(rewardPerTokenStored := RewardPerToken(p, now));
    q.(rewardRate := FundedRate(q, now, amount, duration), rewardsDuration := duration, periodFinish := now + duration,
       lastUpdateTime := now)
  }

  function FundRewardsSpec(s: State, now: nat, sender: Address, amount: nat, duration: nat): (o: Outcome) {
    if sender != s.owner || amount == 0 || duration == 0 then Reverted
    else
      match Transfer(s.pyd, sender, s.self, amount)
      case None => Reverted
      case Some(pyd) => Done(OpenWindow(s, now, amount, duration).(pyd := pyd), 0)
  }

  /** The part of withdraw and exit that hands stake back. */
  function ReturnStake(u: State, sender: Address, amount: nat): Outcome {
    if At(u.stakeAmount, sender) < amount || u.totalSupply < amount then Reverted
    else
      match Transfer(u.pyd, u.self, sender, amount)
      case None => Reverted
      case Some(pyd) =>
        Done(u.(pyd := pyd, stakeAmount := Put(u.stakeAmount, sender, At(u.stakeAmount, sender) - amount),
                totalSupply := u.totalSupply - amount), 0)
  }

  /** The part of getReward and exit that pays the accrued reward. */
  function PayReward(u: State, sender: Address): Outcome {
    var reward := At(u.rewards, sender);
    if reward == 0 then Done(u, 0)
    else
      match Transfer(u.pyd, u.self, sender, reward)
      case None => Reverted
      case Some(pyd) => Done(u.(pyd := pyd, rewards := Put(u.rewards, sender, 0)), reward)
  }

  /** What each staker call does once the period and the caller's reward are up to date. */
  function Finish(u: State, sender: Address, call: Call): Outcome
    requires !call.FundRewards?
  {
    match call
    case Stake(amount) =>
      (match Transfer(u.pyd, sender, u.self, amount)
       case None => Reverted
       case Some(pyd) =>
         Done(u.(pyd := pyd, stakeAmount := Put(u.stakeAmount, sender, At(u.stakeAmount, sender) + amount),
                 totalSupply := u.totalSupply + amount), 0))
    case Withdraw(amount) => ReturnStake(u, sender, amount)
    case GetReward => PayReward(u, sender)
    case Exit =>
      if At(u.stakeAmount, sender) == 0 then PayReward(u, sender)
      else
        match ReturnStake(u, sender, At(u.stakeAmount, sender))
        case Reverted => Reverted
        case Done(v, _) => PayReward(v, sender)
  }

  predicate ZeroAmount(call: Call) {
    (call.Stake? || call.Withdraw?) && call.amount == 0
  }

  function Apply(s: State, now: nat, sender: Address, call: Call): (o: Outcome)
    requires PaidUpToStored(s)
    ensures o.Done? ==> PaidUpToStored(o.s) && o.s.self == s.self && o.s.owner == s.owner
  {
    match call
    case FundRewards(amount, duration) => FundRewardsSpec(s, now, sender, amount, duration)
    case _ =>
      if ZeroAmount(call) then Reverted else Finish(UpdateReward(UpdatePeriod(s, now), sender, now), sender, call)
  }
}
