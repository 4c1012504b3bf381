/** The lazy accumulator of PYDStaking refines exact pro-rata streaming: in every reachable state an account's
  * claimed plus earned reward is at most its exact entitlement, and falls short of it by a bounded rounding. */
module StakingStreaming {
  import opened Common
  import opened Staking
  import opened StakingSafety
  import opened StakingRuns
  import opened StakingSolvency

  const WAD_REAL: real := 1_000_000_000_000_000_000.0

  /** Exact accrual per token since the last banked second, in units of 1 / WAD. */
  function Pending(s: State, now: nat): real {
    if Accrues(s, now) then Emitted(LastT(s, now) - s.lastUpdateTime, s.rewardRate) / s.totalSupply as real else 0.0
  }

  function Emitted(elapsed: nat, rate: nat): real {
    var emission: nat := elapsed * rate;
    (emission * WAD) as real
  }

  /** What an account was paid, is owed and would be owed exactly right now, in units of 1 / WAD. */
  function Credit(s: State, claimed: Ledger, now: nat, a: Address): real {
    Owed(s, claimed, a) as real + At(s.stakeAmount, a) as real * Pending(s, now)
  }

  /** The lazy credit is within `slack` below the exact entitlement. */
  predicate Near(due: real, credit: real, slack: int) {
    credit <= WAD_REAL * due <= credit + slack as real
  }

  function Slack(w: World, a: Address): int {
    WAD * At(w.updates, a) + At(w.floors, a)
  }

  /** Both machines agree on stakes and on the window. */
  ghost predicate SameStakes(r: Stream, s: State, now: nat) {
    && (forall a: Address :: At(r.stake, a) == At(s.stakeAmount, a))
    && r.total == s.totalSupply
    && r.finish == s.periodFinish
    && (now < s.periodFinish ==> r.rate == s.rewardRate)
  }

  ghost predicate Tracks(w: World, us: set<Address>) {
    && SameStakes(w.ref, w.s, w.now)
    && forall a :: a in us ==> Near(Due(w.ref, a), Credit(w.s, w.claimed, w.now, a), Slack(w, a))
  }

  // ---- a second passes ----

  function PerSecond(rate: nat, total: nat): real
    requires total > 0
  {
    (rate * WAD) as real / total as real
  }

  lemma PendingGrows(s: State, now: nat)
    requires Timely(s, now)
    ensures Pending(s, now + 1) == Pending(s, now)
            + (if now < s.periodFinish && s.totalSupply > 0 then PerSecond(s.rewardRate, s.totalSupply) else 0.0)
  {
    if now < s.periodFinish && s.totalSupply > 0 {
      var e: nat := now - s.lastUpdateTime;
      assert Emitted(e + 1, s.rewardRate) == Emitted(e, s.rewardRate) + (s.rewardRate * WAD) as real;
      SumOfQuotients(Emitted(e, s.rewardRate), (s.rewardRate * WAD) as real, s.totalSupply as real);
      hide Emitted;
      assert e == 0 ==> Emitted(e, s.rewardRate) == 0.0;
    }
  }

  lemma SumOfQuotients(x: real, y: real, d: real)
    requires d > 0.0
    ensures (x + y) / d == x / d + y / d
  {
  }

  lemma TickNear(w: World, us: set<Address>, a: Address)
    requires PaidUpToStored(w.s) && Timely(w.s, w.now) && Tracks(w, us) && a in us
    ensures var v := Step(w, us, Tick); Near(Due(v.ref, a), Credit(v.s, v.claimed, v.now, a), Slack(v, a))
  {
    var v := Step(w, us, Tick);
    var gain := if w.now < w.ref.finish && w.ref.total > 0 then Drip(w.ref, a) else 0.0;
    assert Due(v.ref, a) == Due(w.ref, a) + gain;
    CreditGrows(w, us, a);
    NearGrows(Due(w.ref, a), Credit(w.s, w.claimed, w.now, a), Slack(w, a), gain);
    hide Near, Credit, Timely;
  }

  lemma NearGrows(due: real, credit: real, slack: int, gain: real)
    requires Near(due, credit, slack)
    ensures Near(due + gain, credit + WAD_REAL * gain, slack)
  {
  }

  lemma CreditGrows(w: World, us: set<Address>, a: Address)
    requires PaidUpToStored(w.s) && Timely(w.s, w.now) && SameStakes(w.ref, w.s, w.now)
    ensures Credit(w.s, w.claimed, w.now + 1, a) == Credit(w.s, w.claimed, w.now, a)
            + WAD_REAL * (if w.now < w.ref.finish && w.ref.total > 0 then Drip(w.ref, a) else 0.0)
  {
    hide Pending, Owed, Slice, PerSecond;
    PendingGrows(w.s, w.now);
    if w.now < w.s.periodFinish && w.s.totalSupply > 0 {
      DripIsPendingGrowth(At(w.s.stakeAmount, a), w.s.rewardRate, w.s.totalSupply,
                          Pending(w.s, w.now), Pending(w.s, w.now + 1));
    }
  }

  lemma DripIsPendingGrowth(stake: nat, rate: nat, total: nat, before: real, after: real)
    requires total > 0 && after == before + PerSecond(rate, total)
    ensures stake as real * after == stake as real * before + WAD_REAL * Slice(stake, rate, total)
  {
    var r := rate as real / total as real;
    assert (rate * WAD) as real == WAD_REAL * rate as real;
    FactorOut(WAD_REAL, rate as real, total as real);
    FactorOut(stake as real, rate as real, total as real);
    assert stake as real * (before + WAD_REAL * r) == stake as real * before + WAD_REAL * (stake as real * r);
    assert Slice(stake, rate, total) == stake as real * r;
  }

  lemma FactorOut(x: real, y: real, z: real)
    requires z > 0.0
    ensures x * y / z == x * (y / z)
  {
    var q := y / z;
    assert y == q * z;
    assert x * y == (x * q) * z;
  }

  // ---- somebody calls ----

  lemma RealFloor(x: nat, d: nat)
    requires d > 0
    ensures (x / d) as real <= x as real / d as real <= (x / d) as real + 1.0
  {
    var q, r := x / d, x % d;
    assert x as real == (q * d) as real + r as real == q as real * d as real + r as real;
    SumOfQuotients(q as real * d as real, r as real, d as real);
    assert q as real * d as real / d as real == q as real;
    assert 0.0 <= r as real / d as real <= 1.0;
  }

  /** Banking rounds the pending accrual down by less than one unit. */
  lemma PendingFloors(s: State, now: nat)
    ensures var q := (RewardPerToken(s, now) - s.rewardPerTokenStored) as real;
            q <= Pending(s, now) <= q + (if Accrues(s, now) then 1.0 else 0.0)
  {
    if Accrues(s, now) {
      var emission: nat := (LastT(s, now) - s.lastUpdateTime) * s.rewardRate;
      RealFloor(emission * WAD, s.totalSupply);
    }
  }

  lemma SettleOwed(s: State, now: nat, claimed: Ledger, a: Address)
    ensures Owed(Settle(s, now), claimed, a)
            == Owed(s, claimed, a) + At(s.stakeAmount, a) * (RewardPerToken(s, now) - s.rewardPerTokenStored)
  {
    var q := RewardPerToken(s, now) - s.rewardPerTokenStored;
    hide RewardPerToken;
    Distribute(At(s.stakeAmount, a), s.rewardPerTokenStored - At(s.userRewardPerTokenPaid, a), q);
  }

  lemma ScaleBounds(stake: nat, q: int, exact: real, rounded: bool)
    requires q as real <= exact <= q as real + (if rounded then 1.0 else 0.0)
    ensures (stake * q) as real <= stake as real * exact <= (stake * q) as real + (if rounded then stake else 0) as real
  {
    var k, low := stake as real, q as real;
    assert (stake * q) as real == k * low;
    Monotone(k, low, exact);
    if rounded {
      Monotone(k, exact, low + 1.0);
      assert k * (low + 1.0) == k * low + k;
    } else {
      Monotone(k, exact, low);
    }
  }

  lemma Monotone(k: real, x: real, y: real)
    requires 0.0 <= k && x <= y
    ensures k * x <= k * y
  {
  }

  /** A settled account's credit is its credit before, up to the rounding of the accrual step. */
  lemma SettleCredit(s: State, now: nat, claimed: Ledger, a: Address)
    ensures var settled := Owed(Settle(s, now), claimed, a) as real;
            settled <= Credit(s, claimed, now, a) <= settled + FloorLoss(s, now, a) as real
  {
    hide Pending, RewardPerToken, Owed, Settle, Accrues;
    PendingFloors(s, now);
    SettleOwed(s, now, claimed, a);
    ScaleBounds(At(s.stakeAmount, a), RewardPerToken(s, now) - s.rewardPerTokenStored, Pending(s, now), Accrues(s, now));
  }

  lemma NothingPendingAfterCall(s: State, now: nat, sender: Address, call: Call)
    requires PaidUpToStored(s) && Apply(s, now, sender, call).Done?
    ensures Pending(Apply(s, now, sender, call).s, now) == 0.0
  {
    hide Accrual, Share, RewardPerToken, FundedRate;
  }

  lemma CallCredit(s: State, now: nat, sender: Address, call: Call, claimed: Ledger, a: Address)
    requires PaidUpToStored(s) && Apply(s, now, sender, call).Done?
    ensures var o := Apply(s, now, sender, call);
            var after := Credit(o.s, Tally(claimed, sender, o.reward), now, a);
            var lost := FloorLoss(s, now, a) + (if a == sender && !call.FundRewards? then WAD else 0);
            after <= Credit(s, claimed, now, a) <= after + lost as real
  {
    SettleCredit(s, now, claimed, a);
    CallOwed(s, now, sender, call, claimed, a);
    NothingPendingAfterCall(s, now, sender, call);
    var o := Apply(s, now, sender, call);
    assert Credit(o.s, Tally(claimed, sender, o.reward), now, a) == Owed(o.s, Tally(claimed, sender, o.reward), a) as real;
    hide Apply, Credit, Owed;
  }

  /** The caller's stake and the total after a completed call. */
  lemma StakeAfterCall(s: State, now: nat, sender: Address, call: Call)
    requires PaidUpToStored(s) && Apply(s, now, sender, call).Done?
    ensures var v := Apply(s, now, sender, call).s;
            var before := At(s.stakeAmount, sender);
            var after := At(v.stakeAmount, sender);
            match call
            case Stake(amount) => after == before + amount
            case Withdraw(amount) => amount <= before && amount <= s.totalSupply && after == before - amount
            case Exit => after == 0 && before <= s.totalSupply
            case _ => after == before
  {
    hide Accrual, Share, RewardPerToken, FundedRate, LastT;
  }

  /** The window after a completed call. */
  lemma WindowAfterCall(s: State, now: nat, sender: Address, call: Call)
    requires PaidUpToStored(s) && Apply(s, now, sender, call).Done?
    ensures var v := Apply(s, now, sender, call).s;
            if call.FundRewards? then
              && call.duration > 0
              && v.periodFinish == now + call.duration
              && v.rewardRate == (if now >= s.periodFinish then call.amount / call.duration
                                  else (call.amount + Leftover(s, now)) / call.duration)
              && v.rewardsDuration == call.duration && v.lastUpdateTime == now
            else v.periodFinish == s.periodFinish && (now < s.periodFinish ==> v.rewardRate == s.rewardRate)
  {
    hide Accrual, Share, RewardPerToken, LastT, Finish, Transfer;
    if !call.FundRewards? {
      WindowAfterFinish(UpdateReward(UpdatePeriod(s, now), sender, now), sender, call);
    }
  }

  lemma WindowAfterFinish(u: State, sender: Address, call: Call)
    requires !call.FundRewards? && Finish(u, sender, call).Done?
    ensures var v := Finish(u, sender, call).s; v.periodFinish == u.periodFinish && v.rewardRate == u.rewardRate
  {
    hide Transfer;
  }

  lemma CallSameStakes(w: World, sender: Address, call: Call)
    requires PaidUpToStored(w.s) && SameStakes(w.ref, w.s, w.now) && Apply(w.s, w.now, sender, call).Done?
    ensures SameStakes(StreamCall(w.ref, w.now, sender, call), Apply(w.s, w.now, sender, call).s, w.now)
  {
    CallStake(w.s, w.now, sender, call);
    StakeAfterCall(w.s, w.now, sender, call);
    WindowAfterCall(w.s, w.now, sender, call);
    hide Apply, PaidUpToStored;
  }

  lemma NearShifts(due: real, before: real, after: real, slack: int, lost: int)
    requires Near(due, before, slack) && after <= before <= after + lost as real
    ensures Near(due, after, slack + lost)
  {
  }

  lemma ActNear(w: World, us: set<Address>, sender: Address, call: Call, a: Address)
    requires PaidUpToStored(w.s) && Tracks(w, us) && a in us && Apply(w.s, w.now, sender, call).Done?
    ensures var v := Step(w, us, Act(sender, call)); Near(Due(v.ref, a), Credit(v.s, v.claimed, v.now, a), Slack(v, a))
  {
    hide Apply, Credit, SameStakes, FloorLoss, PaidUpToStored, Near;
    var v := Step(w, us, Act(sender, call));
    var lost := FloorLoss(w.s, w.now, a) + (if a == sender && !call.FundRewards? then WAD else 0);
    CallCredit(w.s, w.now, sender, call, w.claimed, a);
    NearShifts(Due(w.ref, a), Credit(w.s, w.claimed, w.now, a), Credit(v.s, v.claimed, v.now, a), Slack(w, a), lost);
    assert v.ref.due == w.ref.due;
    assert At(v.floors, a) == At(w.floors, a) + FloorLoss(w.s, w.now, a);
    assert Slack(v, a) == Slack(w, a) + lost;
  }

  lemma StepTracks(w: World, us: set<Address>, e: Event)
    requires PaidUpToStored(w.s) && Solvent(w, us) && Tracks(w, us)
    requires e.Act? ==> e.sender in us
    ensures Tracks(Step(w, us, e), us)
  {
    hide Credit, Slack, Apply, Near, Covered;
    forall a | a in us
      ensures var v := Step(w, us, e); Near(Due(v.ref, a), Credit(v.s, v.claimed, v.now, a), Slack(v, a))
    {
      match e
      case Tick => TickNear(w, us, a);
      case Outside(_, _) => OutsideKeepsCredit(w, us, e, a);
      case Act(sender, call) =>
        if Apply(w.s, w.now, sender, call).Done? {
          ActNear(w, us, sender, call, a);
        }
    }
    if e.Act? && Apply(w.s, w.now, e.sender, e.call).Done? {
      CallSameStakes(w, e.sender, e.call);
    }
  }

  lemma OutsideKeepsCredit(w: World, us: set<Address>, e: Event, a: Address)
    requires PaidUpToStored(w.s) && e.Outside?
    ensures var v := Step(w, us, e);
            Credit(v.s, v.claimed, v.now, a) == Credit(w.s, w.claimed, w.now, a) && Slack(v, a) == Slack(w, a)
  {
  }

  /** The lazy accumulator tracks the reference machine in every reachable state. */
  lemma {:induction false} AlwaysTracks(us: set<Address>, w: World, es: seq<Event>)
    requires w == Start(w.s.self, w.s.owner, w.s.pyd, w.now)
    requires Callers(w.s.self, us, es)
    ensures Tracks(Run(w, us, es), us)
  {
    if es != [] {
      var before := es[..|es| - 1];
      AlwaysTracks(us, w, before);
      AlwaysSolvent(us, w, before);
      StepTracks(Run(w, us, before), us, es[|es| - 1]);
    }
  }

  /** In every reachable state, claimed plus earned is at most the exact entitlement, and below it by less than
    * one wei, one wei for each time the account was synced, and its stake / WAD for each accrual step. */
  lemma LazyRefinesStreaming(us: set<Address>, w: World, es: seq<Event>, a: Address)
    requires w == Start(w.s.self, w.s.owner, w.s.pyd, w.now)
    requires Callers(w.s.self, us, es) && a in us
    ensures var v := Run(w, us, es);
            var got := At(v.claimed, a) + Earned(v.s, a, v.now);
            && got as real <= Due(v.ref, a)
            && WAD_REAL * Due(v.ref, a)
               < (WAD * (got + 1 + At(v.updates, a)) + At(v.floors, a) + FloorLoss(v.s, v.now, a)) as real
  {
    hide Run, Credit, Owed, Settle, Near, SameStakes, FloorLoss, Earned, Due;
    AlwaysTracks(us, w, es);
    var v := Run(w, us, es);
    EarnedIsOwedFloor(v.s, v.now, v.claimed, a);
    SettleCredit(v.s, v.now, v.claimed, a);
    SandwichedByFloor(Due(v.ref, a), Credit(v.s, v.claimed, v.now, a), Owed(Settle(v.s, v.now), v.claimed, a),
                      At(v.claimed, a) + Earned(v.s, a, v.now), Slack(v, a), FloorLoss(v.s, v.now, a));
  }

  lemma SandwichedByFloor(due: real, credit: real, owed: int, got: int, slack: int, loss: int)
    requires Near(due, credit, slack)
    requires owed as real <= credit <= owed as real + loss as real
    requires WAD * got <= owed < WAD * got + WAD
    ensures got as real <= due
    ensures WAD_REAL * due < (WAD * (got + 1) + slack + loss) as real
  {
    assert (WAD * got) as real == WAD_REAL * got as real;
  }

  /** Within one timestamp, no sequence of calls by anyone moves any account's claimed plus earned reward. */
  lemma {:induction false} NothingMovesWithinTimestamp(us: set<Address>, w: World, es: seq<Event>, a: Address)
    requires PaidUpToStored(w.s) && Callers(w.s.self, us, es)
    requires forall i :: 0 <= i < |es| ==> !es[i].Tick?
    ensures var v := Run(w, us, es);
            At(v.claimed, a) + Earned(v.s, a, v.now) == At(w.claimed, a) + Earned(w.s, a, w.now)
  {
    if es != [] {
      var before := es[..|es| - 1];
      NothingMovesWithinTimestamp(us, w, before, a);
      StepMovesNothing(Run(w, us, before), us, es[|es| - 1], a);
    }
  }

  lemma StepMovesNothing(w: World, us: set<Address>, e: Event, a: Address)
    requires PaidUpToStored(w.s) && !e.Tick?
    ensures var v := Step(w, us, e);
            v.now == w.now && At(v.claimed, a) + Earned(v.s, a, v.now) == At(w.claimed, a) + Earned(w.s, a, w.now)
  {
    hide Apply, Share, Accrual;
    if e.Act? && Apply(w.s, w.now, e.sender, e.call).Done? {
      EarnedUntouchedByOthers(w.s, w.now, e.sender, e.call, a);
    }
  }
}
