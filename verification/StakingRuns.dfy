/** Whole runs of PYDStaking, beside a reference machine that streams rewards exactly.
  *
  * The reference machine knows nothing of reward-per-token marks: every second it hands each staker its exact
  * real-valued share of that second's emission. */
module StakingRuns {
  import opened Common
  import opened Staking
  import opened StakingSafety

  // ---- the reference machine ----

  datatype Stream = Stream(stake: Ledger, total: nat, rate: nat, finish: nat, due: map<Address, real>)

  function Due(r: Stream, a: Address): real {
    if a in r.due then r.due[a] else 0.0
  }

  /** One account's share of one second. */
  function Drip(r: Stream, a: Address): real
    requires r.total > 0
  {
    Slice(At(r.stake, a), r.rate, r.total)
  }

  function Slice(stake: nat, rate: nat, total: nat): real
    requires total > 0
  {
    stake as real * rate as real / total as real
  }

  /** The second that starts at `now`. */
  function Second(r: Stream, us: set<Address>, now: nat): Stream {
    if now < r.finish && r.total > 0 then r.(due := map a | a in us :: Due(r, a) + Drip(r, a)) else r
  }

  function StreamCall(r: Stream, now: nat, sender: Address, call: Call): Stream {
    match call
    case FundRewards(amount, duration) =>
      if duration == 0 then r
      else if now >= r.finish then r.(rate := amount / duration, finish := now + duration)
      else
        var unspent: nat := (r.finish - now) * r.rate;
        r.(rate := (amount + unspent) / duration, finish := now + duration)
    case Stake(amount) => r.(stake := Put(r.stake, sender, At(r.stake, sender) + amount), total := r.total + amount)
    case Withdraw(amount) =>
      r.(stake := Put(r.stake, sender, Minus(At(r.stake, sender), amount)), total := Minus(r.total, amount))
    case GetReward => r
    case Exit => r.(stake := Put(r.stake, sender, 0), total := Minus(r.total, At(r.stake, sender)))
  }

  // ---- runs ----

  /** A second passes; PYD moves elsewhere, possibly into the contract; somebody calls. */
  datatype Event =
    | Tick
    | Outside(pyd: Ledger, donated: nat)
    | Act(sender: Address, call: Call)

  /** The contract, the clock, and a history: PYD funded, rewards claimed by each account, how often each
    * account was synced, and the stake-weighted number of accrual steps it sat through. */
  datatype World = World(s: State, now: nat, funded: nat, claimed: Ledger, updates: Ledger, floors: Ledger, ref: Stream)

  /** Reading the accumulator now would round a freshly computed accrual. */
  predicate Accrues(s: State, now: nat) {
    s.totalSupply > 0 && s.lastUpdateTime < LastT(s, now)
  }

  function FloorLoss(s: State, now: nat, a: Address): nat {
    if Accrues(s, now) then At(s.stakeAmount, a) else 0
  }

  function Tally(m: Ledger, a: Address, amount: nat): Ledger {
    if amount == 0 then m else Put(m, a, At(m, a) + amount)
  }

  function Step(w: World, us: set<Address>, e: Event): World
    requires PaidUpToStored(w.s)
  {
    match e
    case Tick => w.(now := w.now + 1, ref := Second(w.ref, us, w.now))
    case Outside(pyd, donated) => w.(s := w.s.(pyd := Put(pyd, w.s.self, At(w.s.pyd, w.s.self) + donated)))
    case Act(sender, call) =>
      match Apply(w.s, w.now, sender, call)
      case Reverted => w
      case Done(s, reward) =>
        World(s, w.now,
              if call.FundRewards? then w.funded + call.amount else w.funded,
              Tally(w.claimed, sender, reward),
              if call.FundRewards? then w.updates else Put(w.updates, sender, At(w.updates, sender) + 1),
              map a | a in us :: At(w.floors, a) + FloorLoss(w.s, w.now, a),
              StreamCall(w.ref, w.now, sender, call))
  }

  /** Every caller is an account of `us` other than the contract itself, which calls nobody. */
  ghost predicate Callers(self: Address, us: set<Address>, es: seq<Event>) {
    forall i :: 0 <= i < |es| && es[i].Act? ==> es[i].sender in us && es[i].sender != self
  }

  function Start(self: Address, owner: Address, pyd: Ledger, now: nat): World {
    World(Deployed(self, owner, pyd, now), now, 0, map[], map[], map[], Stream(map[], 0, 0, 0, map[]))
  }

  function Run(w: World, us: set<Address>, es: seq<Event>): (r: World)
    requires PaidUpToStored(w.s)
    ensures PaidUpToStored(r.s) && r.s.self == w.s.self
  {
    if es == [] then w else Step(Run(w, us, es[..|es| - 1]), us, es[|es| - 1])
  }

  // ---- the accrual common to every call ----

  /** The contract with everything up to `now` banked and no account marked. */
  function Settle(s: State, now: nat): (r: State)
    ensures PaidUpToStored(s) ==> PaidUpToStored(r)
  {
    s.(rewardPerTokenStored := RewardPerToken(s, now),
       lastUpdateTime := LastT(s, now),
       rewardRate := if now >= s.periodFinish && s.periodFinish > 0 then 0 else s.rewardRate)
  }

  /** Marking one account as paid up to the stored mark, its share moved to `rewards`. */
  function Mark(s: State, a: Address): (r: State)
    requires PaidUpToStored(s)
    ensures PaidUpToStored(r)
  {
    s.(rewards := Put(s.rewards, a, At(s.rewards, a)
                  + Share(At(s.stakeAmount, a), At(s.userRewardPerTokenPaid, a), s.rewardPerTokenStored)),
       userRewardPerTokenPaid := Put(s.userRewardPerTokenPaid, a, s.rewardPerTokenStored))
  }

  lemma SyncIsSettleThenMark(s: State, a: Address, now: nat)
    requires PaidUpToStored(s)
    ensures Sync(s, a, now) == Mark(Settle(s, now), a)
  {
    hide Accrual, Share;
    assert LastT(UpdatePeriod(s, now), now) == LastT(s, now);
  }

  /** The clock facts of reachable states. */
  predicate Timely(s: State, now: nat) {
    && s.lastUpdateTime <= now
    && (if s.periodFinish == 0 then s.rewardRate == 0 else s.lastUpdateTime <= s.periodFinish)
  }

  /** A floor division is within one unit below the exact quotient. */
  lemma FloorBounds(x: nat, d: nat)
    requires d > 0
    ensures (x / d) * d <= x < (x / d) * d + d
  {
  }
}
