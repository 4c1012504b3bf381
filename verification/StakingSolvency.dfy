/** Solvency of PYDStaking in every reachable state: claims never exceed what was funded, staked principal is
  * never touched, and no withdrawal, claim or exit can lack tokens. */
module StakingSolvency {
  import opened Common
  import opened Staking
  import opened StakingSafety
  import opened StakingRuns

  /** What one account was paid and is still owed up to the stored mark, in units of 1 / WAD. */
  function Owed(s: State, claimed: Ledger, a: Address): int {
    WAD * (At(claimed, a) + At(s.rewards, a))
    + Unmarked(At(s.stakeAmount, a), At(s.userRewardPerTokenPaid, a), s.rewardPerTokenStored)
  }

  function Unmarked(stake: nat, from: nat, to: nat): int {
    stake * (to - from)
  }

  ghost function OwedOf(s: State, claimed: Ledger): Address -> int {
    (a: Address) => Owed(s, claimed, a)
  }

  /** What the current window has still to emit. */
  function Unspent(s: State): int {
    s.rewardRate * (s.periodFinish - s.lastUpdateTime)
  }

  /** The rewards side: everything owed plus everything still to be emitted was funded. */
  ghost predicate Covered(s: State, claimed: Ledger, funded: nat, us: set<Address>) {
    && Sum(us, Of(s.stakeAmount)) == s.totalSupply
    && Sum(us, OwedOf(s, claimed)) + WAD * Unspent(s) <= WAD * funded
  }

  /** And the tokens: what was funded and not claimed is held beside all stakes. */
  ghost predicate CoveredAndHeld(s: State, now: nat, claimed: Ledger, funded: nat, us: set<Address>) {
    && Timely(s, now)
    && Covered(s, claimed, funded, us)
    && s.totalSupply + funded <= At(s.pyd, s.self) + Sum(us, Of(claimed))
  }

  ghost predicate Solvent(w: World, us: set<Address>) {
    CoveredAndHeld(w.s, w.now, w.claimed, w.funded, us)
  }

  // ---- the stages of a call ----

  lemma AccrualFloors(elapsed: nat, rate: nat, total: nat)
    requires total > 0
    ensures Accrual(elapsed, rate, total) * total <= WAD * (rate * elapsed)
  {
    FloorBounds(elapsed * rate * WAD, total);
  }

  /** A banked accrual never exceeds the emission it stands for. */
  lemma AccrualWithinEmission(s: State, now: nat)
    requires Timely(s, now)
    ensures var q := RewardPerToken(s, now) - s.rewardPerTokenStored;
            q * s.totalSupply + WAD * Unspent(Settle(s, now)) <= WAD * Unspent(s)
  {
    hide Accrual;
    if s.periodFinish > 0 {
      EmissionSplit(s.rewardRate, s.periodFinish, s.lastUpdateTime, LastT(s, now));
      if s.totalSupply > 0 {
        AccrualFloors(LastT(s, now) - s.lastUpdateTime, s.rewardRate, s.totalSupply);
      }
    }
  }

  lemma EmissionSplit(rate: nat, finish: nat, last: nat, mid: nat)
    requires last <= mid <= finish
    ensures rate * (finish - last) == rate * (mid - last) + rate * (finish - mid)
    ensures rate * (finish - mid) >= 0 && rate * (mid - last) >= 0
  {
  }

  lemma SettleCovered(s: State, now: nat, claimed: Ledger, funded: nat, us: set<Address>)
    requires Timely(s, now) && Covered(s, claimed, funded, us)
    ensures Covered(Settle(s, now), claimed, funded, us) && Timely(Settle(s, now), now)
  {
    var t := Settle(s, now);
    var q := t.rewardPerTokenStored - s.rewardPerTokenStored;
    AccrualWithinEmission(s, now);
    hide Accrual, Unspent, RewardPerToken;
    forall a | a in us ensures OwedOf(t, claimed)(a) == OwedOf(s, claimed)(a) + q * Of(s.stakeAmount)(a) {
      Distribute(At(s.stakeAmount, a), s.rewardPerTokenStored - At(s.userRewardPerTokenPaid, a), q);
    }
    SumLinear(us, OwedOf(s, claimed), Of(s.stakeAmount), q, OwedOf(t, claimed));
  }

  lemma Distribute(x: int, y: int, z: int)
    ensures x * (y + z) == x * y + z * x
  {
  }

  lemma MarkRoundsDown(s: State, a: Address, claimed: Ledger)
    requires PaidUpToStored(s)
    ensures Owed(Mark(s, a), claimed, a) <= Owed(s, claimed, a) < Owed(Mark(s, a), claimed, a) + WAD
  {
    var x := At(s.stakeAmount, a) * (s.rewardPerTokenStored - At(s.userRewardPerTokenPaid, a));
    FloorBounds(x, WAD);
    NothingUnmarked(At(s.stakeAmount, a), s.rewardPerTokenStored);
    assert Share(At(s.stakeAmount, a), At(s.userRewardPerTokenPaid, a), s.rewardPerTokenStored) == x / WAD;
    assert Unmarked(At(s.stakeAmount, a), At(s.userRewardPerTokenPaid, a), s.rewardPerTokenStored) == x;
    hide Unmarked, Share;
  }

  lemma NothingUnmarked(stake: nat, mark: nat)
    ensures Unmarked(stake, mark, mark) == 0
  {
  }

  /** Stake of a freshly marked account may change without touching what anyone is owed. */
  lemma RestakeOwed(u: State, v: State, a: Address, claimed: Ledger, b: Address)
    requires At(u.userRewardPerTokenPaid, a) == u.rewardPerTokenStored
    requires v == u.(pyd := v.pyd, stakeAmount := v.stakeAmount, totalSupply := v.totalSupply)
    requires forall c: Address :: c != a ==> At(v.stakeAmount, c) == At(u.stakeAmount, c)
    ensures Owed(v, claimed, b) == Owed(u, claimed, b)
  {
    NothingUnmarked(At(u.stakeAmount, a), u.rewardPerTokenStored);
    NothingUnmarked(At(v.stakeAmount, a), u.rewardPerTokenStored);
    hide Unmarked;
  }

  lemma PayRewardOwed(u: State, a: Address, claimed: Ledger, b: Address)
    requires PayReward(u, a).Done?
    ensures var o := PayReward(u, a); Owed(o.s, Tally(claimed, a, o.reward), b) == Owed(u, claimed, b)
  {
    hide Unmarked;
  }

  lemma StakerCallOwed(u: State, sender: Address, call: Call, o: Outcome, claimed: Ledger, a: Address)
    requires At(u.userRewardPerTokenPaid, sender) == u.rewardPerTokenStored
    requires o.Done? && !call.FundRewards? && o == Finish(u, sender, call)
    ensures Owed(o.s, Tally(claimed, sender, o.reward), a) == Owed(u, claimed, a)
  {
    hide Owed, PayReward;
    match call {
      case Stake(_) => RestakeOwed(u, o.s, sender, claimed, a);
      case Withdraw(_) => RestakeOwed(u, o.s, sender, claimed, a);
      case GetReward => PayRewardOwed(u, sender, claimed, a);
      case Exit =>
        if At(u.stakeAmount, sender) == 0 {
          PayRewardOwed(u, sender, claimed, a);
        } else {
          var w := ReturnStake(u, sender, At(u.stakeAmount, sender)).s;
          RestakeOwed(u, w, sender, claimed, a);
          PayRewardOwed(w, sender, claimed, a);
        }
    }
  }

  /** A call moves what it pays from owed to claimed, and loses less than one unit of its caller's. */
  lemma CallOwed(s: State, now: nat, sender: Address, call: Call, claimed: Ledger, a: Address)
    requires PaidUpToStored(s) && Apply(s, now, sender, call).Done?
    ensures var o := Apply(s, now, sender, call);
            var after := Owed(o.s, Tally(claimed, sender, o.reward), a);
            var settled := Owed(Settle(s, now), claimed, a);
            after <= settled <= after + (if a == sender && !call.FundRewards? then WAD else 0)
  {
    var o := Apply(s, now, sender, call);
    var t := Settle(s, now);
    hide Accrual, Share, RewardPerToken, LastT, Unmarked, FundedRate;
    if call.FundRewards? {
      FundingSettles(s, now);
    } else {
      SyncIsSettleThenMark(s, sender, now);
      MarkRoundsDown(t, sender, claimed);
      StakerCallOwed(Mark(t, sender), sender, call, o, claimed, a);
      hide Apply, Finish;
    }
  }

  lemma FundingSettles(s: State, now: nat)
    ensures RewardPerToken(UpdatePeriod(s, now), now) == Settle(s, now).rewardPerTokenStored
  {
    hide Accrual;
    assert LastT(UpdatePeriod(s, now), now) == LastT(s, now);
  }

  lemma CallStakes(s: State, now: nat, sender: Address, call: Call, us: set<Address>)
    requires PaidUpToStored(s) && Apply(s, now, sender, call).Done? && sender in us
    ensures var v := Apply(s, now, sender, call).s;
            Sum(us, Of(v.stakeAmount)) - v.totalSupply == Sum(us, Of(s.stakeAmount)) - s.totalSupply
  {
    var v := Apply(s, now, sender, call).s;
    CallStake(s, now, sender, call);
    SumUpdate(us, Of(s.stakeAmount), Of(v.stakeAmount), sender);
    hide Apply;
  }

  /** Only the caller's stake changes, and the total with it. */
  lemma CallStake(s: State, now: nat, sender: Address, call: Call)
    requires PaidUpToStored(s) && Apply(s, now, sender, call).Done?
    ensures var v := Apply(s, now, sender, call).s;
            && (forall b: Address :: b != sender ==> At(v.stakeAmount, b) == At(s.stakeAmount, b))
            && v.totalSupply - s.totalSupply == At(v.stakeAmount, sender) - At(s.stakeAmount, sender)
  {
    hide Accrual, Share, RewardPerToken, LastT, FundedRate, Finish;
    if !call.FundRewards? {
      FinishStake(UpdateReward(UpdatePeriod(s, now), sender, now), sender, call);
    }
  }

  lemma FinishStake(u: State, sender: Address, call: Call)
    requires !call.FundRewards? && Finish(u, sender, call).Done?
    ensures var v := Finish(u, sender, call).s;
            && (forall b: Address :: b != sender ==> At(v.stakeAmount, b) == At(u.stakeAmount, b))
            && v.totalSupply - u.totalSupply == At(v.stakeAmount, sender) - At(u.stakeAmount, sender)
  {
  }

  /** A new window emits no more than its funding plus what the old one had left. */
  lemma CallUnspent(s: State, now: nat, sender: Address, call: Call)
    requires PaidUpToStored(s) && Timely(s, now) && Apply(s, now, sender, call).Done?
    ensures Unspent(Apply(s, now, sender, call).s)
            <= Unspent(Settle(s, now)) + (if call.FundRewards? then call.amount else 0)
  {
    SyncIsSettleThenMark(s, sender, now);
    var t := Settle(s, now);
    var v := Apply(s, now, sender, call).s;
    hide Accrual, Share, RewardPerToken;
    if call.FundRewards? {
      var pool := if now >= s.periodFinish then call.amount else call.amount + Leftover(t, now);
      FloorBounds(pool, call.duration);
      assert v.rewardRate == pool / call.duration;
    }
  }

  lemma CallCovered(s: State, now: nat, sender: Address, call: Call, claimed: Ledger, funded: nat, us: set<Address>)
    requires PaidUpToStored(s) && Timely(s, now) && Covered(s, claimed, funded, us) && sender in us
    ensures var o := Apply(s, now, sender, call);
            o.Done? ==>
            Covered(o.s, Tally(claimed, sender, o.reward), if call.FundRewards? then funded + call.amount else funded, us)
  {
    var o := Apply(s, now, sender, call);
    if o.Reverted? { return; }
    var t := Settle(s, now);
    SettleCovered(s, now, claimed, funded, us);
    CallUnspent(s, now, sender, call);
    CallStakes(s, now, sender, call, us);
    var paid := Tally(claimed, sender, o.reward);
    forall a | a in us ensures OwedOf(o.s, paid)(a) <= OwedOf(t, claimed)(a) {
      CallOwed(s, now, sender, call, claimed, a);
    }
    hide Apply, Unspent, Owed;
    SumAtMost(us, OwedOf(o.s, paid), OwedOf(t, claimed));
  }

  /** The token side of a completed call. */
  lemma CallTokens(s: State, now: nat, sender: Address, call: Call)
    requires PaidUpToStored(s) && sender != s.self
    requires Apply(s, now, sender, call).Done?
    ensures var o := Apply(s, now, sender, call);
            At(o.s.pyd, s.self) + s.totalSupply + o.reward
            == At(s.pyd, s.self) + o.s.totalSupply + (if call.FundRewards? then call.amount else 0)
    ensures Timely(s, now) ==> Timely(Apply(s, now, sender, call).s, now)
  {
    SyncIsSettleThenMark(s, sender, now);
    hide Accrual, Share, RewardPerToken, FundedRate;
  }

  lemma CallCoveredAndHeld(s: State, now: nat, sender: Address, call: Call, claimed: Ledger, funded: nat,
                           us: set<Address>)
    requires PaidUpToStored(s) && CoveredAndHeld(s, now, claimed, funded, us) && sender in us && sender != s.self
    requires Apply(s, now, sender, call).Done?
    ensures var o := Apply(s, now, sender, call);
            CoveredAndHeld(o.s, now, Tally(claimed, sender, o.reward),
                           if call.FundRewards? then funded + call.amount else funded, us)
  {
    hide Covered, Timely, Apply;
    CallCovered(s, now, sender, call, claimed, funded, us);
    CallTokens(s, now, sender, call);
    SumUpdate(us, Of(claimed), Of(Tally(claimed, sender, Apply(s, now, sender, call).reward)), sender);
  }

  lemma LaterStillCovered(s: State, now: nat, later: nat, claimed: Ledger, funded: nat, us: set<Address>)
    requires CoveredAndHeld(s, now, claimed, funded, us) && now <= later
    ensures CoveredAndHeld(s, later, claimed, funded, us)
  {
  }

  lemma DeployedCovered(s: State, now: nat, us: set<Address>)
    requires s == Deployed(s.self, s.owner, s.pyd, now)
    ensures CoveredAndHeld(s, now, map[], 0, us)
  {
    SumOfZeros(us);
    SumSame(us, Of(map[]), _ => 0);
    SumSame(us, OwedOf(s, map[]), _ => 0);
  }

  lemma StepSolvent(w: World, us: set<Address>, e: Event)
    requires PaidUpToStored(w.s) && Solvent(w, us)
    requires e.Act? ==> e.sender in us && e.sender != w.s.self
    ensures Solvent(Step(w, us, e), us)
  {
    var v := Step(w, us, e);
    match e
    case Tick =>
    case Outside(_, _) =>
      SumSame(us, OwedOf(w.s, w.claimed), OwedOf(v.s, v.claimed));
    case Act(sender, call) =>
      if Apply(w.s, w.now, sender, call).Done? {
        CallCoveredAndHeld(w.s, w.now, sender, call, w.claimed, w.funded, us);
      }
  }

  /** Solvency in every reachable state. */
  lemma {:induction false} AlwaysSolvent(us: set<Address>, w: World, es: seq<Event>)
    requires w == Start(w.s.self, w.s.owner, w.s.pyd, w.now)
    requires Callers(w.s.self, us, es)
    ensures Solvent(Run(w, us, es), us)
  {
    if es == [] {
      DeployedCovered(w.s, w.now, us);
    } else {
      var before := es[..|es| - 1];
      AlwaysSolvent(us, w, before);
      StepSolvent(Run(w, us, before), us, es[|es| - 1]);
    }
  }

  // ---- consequences ----

  ghost function EarnedOf(s: State, now: nat): Address -> int
    requires PaidUpToStored(s)
  {
    (a: Address) => Earned(s, a, now)
  }

  lemma EarnedIsOwedFloor(s: State, now: nat, claimed: Ledger, a: Address)
    requires PaidUpToStored(s)
    ensures var paidOut := WAD * (At(claimed, a) + Earned(s, a, now));
            paidOut <= Owed(Settle(s, now), claimed, a) < paidOut + WAD
  {
    var x := At(s.stakeAmount, a) * (RewardPerToken(s, now) - At(s.userRewardPerTokenPaid, a));
    FloorBounds(x, WAD);
    assert Share(At(s.stakeAmount, a), At(s.userRewardPerTokenPaid, a), RewardPerToken(s, now)) == x / WAD;
    assert Unmarked(At(s.stakeAmount, a), At(s.userRewardPerTokenPaid, a), RewardPerToken(s, now)) == x;
    hide Unmarked, Share, RewardPerToken;
  }

  lemma UnspentNonNegative(s: State, now: nat)
    requires Timely(s, now)
    ensures 0 <= Unspent(s)
  {
    if s.periodFinish > 0 {
      EmissionSplit(s.rewardRate, s.periodFinish, s.lastUpdateTime, s.periodFinish);
    }
  }

  /** Everything ever claimed plus everything claimable now was funded. */
  lemma ClaimsWithinFunding(w: World, us: set<Address>)
    requires PaidUpToStored(w.s) && Solvent(w, us)
    ensures Sum(us, Of(w.claimed)) + Sum(us, EarnedOf(w.s, w.now)) <= w.funded
  {
    var t := Settle(w.s, w.now);
    SettleCovered(w.s, w.now, w.claimed, w.funded, us);
    UnspentNonNegative(t, w.now);
    ghost var both := (a: Address) => At(w.claimed, a) + Earned(w.s, a, w.now);
    ghost var scaled := (a: Address) => WAD * both(a);
    SumLinear(us, Of(w.claimed), EarnedOf(w.s, w.now), 1, both);
    SumOfZeros(us);
    SumLinear(us, _ => 0, both, WAD, scaled);
    forall a | a in us ensures scaled(a) <= OwedOf(t, w.claimed)(a) {
      EarnedIsOwedFloor(w.s, w.now, w.claimed, a);
    }
    SumAtMost(us, scaled, OwedOf(t, w.claimed));
  }

  /** The contract holds all staked principal and, beside it, every account's earned reward. */
  lemma HoldsPrincipalAndRewards(w: World, us: set<Address>)
    requires PaidUpToStored(w.s) && Solvent(w, us)
    ensures w.s.totalSupply + Sum(us, EarnedOf(w.s, w.now)) <= At(w.s.pyd, w.s.self)
    ensures forall a :: a in us ==>
              && At(w.s.stakeAmount, a) <= w.s.totalSupply
              && w.s.totalSupply + Earned(w.s, a, w.now) <= At(w.s.pyd, w.s.self)
  {
    ClaimsWithinFunding(w, us);
    SumNonNegative(us, Of(w.s.stakeAmount));
    SumNonNegative(us, EarnedOf(w.s, w.now));
    forall a | a in us
      ensures At(w.s.stakeAmount, a) <= w.s.totalSupply
      ensures w.s.totalSupply + Earned(w.s, a, w.now) <= At(w.s.pyd, w.s.self)
    {
      assert Of(w.s.stakeAmount)(a) <= Sum(us, Of(w.s.stakeAmount));
      assert EarnedOf(w.s, w.now)(a) <= Sum(us, EarnedOf(w.s, w.now));
    }
  }

  lemma PayoutsSucceed(u: State, a: Address, amount: nat)
    requires a != u.self && At(u.stakeAmount, a) <= u.totalSupply
    requires u.totalSupply + At(u.rewards, a) <= At(u.pyd, u.self)
    ensures PayReward(u, a).Done?
    ensures var o := ReturnStake(u, a, amount);
            && (o.Done? <==> amount <= At(u.stakeAmount, a))
            && (o.Done? ==> PayReward(o.s, a).Done?)
  {
  }

  /** No claim or exit ever reverts, and a withdrawal reverts exactly when it asks for nothing or for more
    * than the caller's stake. */
  lemma ExitsAlwaysPaid(w: World, us: set<Address>, sender: Address, amount: nat)
    requires PaidUpToStored(w.s) && Solvent(w, us) && sender in us && sender != w.s.self
    ensures Apply(w.s, w.now, sender, GetReward).Done?
    ensures Apply(w.s, w.now, sender, Exit).Done?
    ensures Apply(w.s, w.now, sender, Withdraw(amount)).Done? <==> 0 < amount <= At(w.s.stakeAmount, sender)
  {
    HoldsPrincipalAndRewards(w, us);
    SyncAccruesOnce(w.s, sender, w.now);
    var u := Sync(w.s, sender, w.now);
    PayoutsSucceed(u, sender, amount);
    PayoutsSucceed(u, sender, At(u.stakeAmount, sender));
    hide ReturnStake, PayReward, UpdateReward, UpdatePeriod, Solvent, Timely;
  }

  /** The same for a contract last called at `before`. */
  lemma PayoutsCovered(s: State, before: nat, now: nat, sender: Address, claimed: Ledger, funded: nat, us: set<Address>)
    requires PaidUpToStored(s) && CoveredAndHeld(s, before, claimed, funded, us) && before <= now
    requires sender in us && sender != s.self
    ensures Apply(s, now, sender, GetReward).Done?
    ensures Apply(s, now, sender, Exit).Done?
    ensures forall amount: nat :: Apply(s, now, sender, Withdraw(amount)).Done? <==> 0 < amount <= At(s.stakeAmount, sender)
  {
    hide Apply, CoveredAndHeld;
    LaterStillCovered(s, before, now, claimed, funded, us);
    var w := World(s, now, funded, claimed, map[], map[], Stream(map[], 0, 0, 0, map[]));
    forall amount: nat
      ensures Apply(s, now, sender, Withdraw(amount)).Done? <==> 0 < amount <= At(s.stakeAmount, sender)
    {
      ExitsAlwaysPaid(w, us, sender, amount);
    }
    ExitsAlwaysPaid(w, us, sender, 0);
  }

  /** In every reachable state: all rewards ever claimed and all claimable now were funded, the contract holds every
    * stake and every earned reward at once, no claim or exit reverts, and a withdrawal up to the stake does not. */
  lemma EveryReachableStatePays(us: set<Address>, w: World, es: seq<Event>, a: Address, amount: nat)
    requires w == Start(w.s.self, w.s.owner, w.s.pyd, w.now)
    requires Callers(w.s.self, us, es) && a in us && a != w.s.self
    ensures var v := Run(w, us, es);
            && Sum(us, Of(v.claimed)) + Sum(us, EarnedOf(v.s, v.now)) <= v.funded
            && v.s.totalSupply + Sum(us, EarnedOf(v.s, v.now)) <= At(v.s.pyd, v.s.self)
            && Apply(v.s, v.now, a, GetReward).Done?
            && Apply(v.s, v.now, a, Exit).Done?
            && (Apply(v.s, v.now, a, Withdraw(amount)).Done? <==> 0 < amount <= At(v.s.stakeAmount, a))
  {
    hide Solvent, Apply, Run;
    AlwaysSolvent(us, w, es);
    var v := Run(w, us, es);
    ClaimsWithinFunding(v, us);
    HoldsPrincipalAndRewards(v, us);
    ExitsAlwaysPaid(v, us, a, amount);
  }
}
