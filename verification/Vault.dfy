/** ProYieldVault: share accounting, two withdrawal paths, and the allocate, recall and harvest loops over the
  * strategy list, as pure functions: the specification of the contract in VaultContract. */
module Vault {
  import opened Common
  import opened VaultMath
  import DN = DeltaNeutral

  const RESERVE_BPS: nat := 1000
  const BPS: nat := 10000

  /** What the vault reaches by external calls: the underlying token, the storage of the strategies, and which other
    * addresses hold contracts; those are no strategies and revert what a vault asks of one. */
  datatype Pool = Pool(token: Ledger, strats: map<Address, DN.Strategy>, others: set<Address>)

  datatype State = State(
    self: Address,
    owner: Address,
    feeDistributor: Address,
    pool: Pool,
    shares: Ledger,
    totalShares: nat,
    totalAssets: nat,
    strategyList: seq<Address>,
    strategies: set<Address>,
    strategyActive: set<Address>,
    performanceFee: nat,
    tvlCap: nat,
    perUserCap: nat,
    depositsPaused: bool)

  function Deployed(self: Address, owner: Address, feeDistributor: Address, pool: Pool): State {
    State(self, owner, feeDistributor, pool, map[], 0, 0, [], {}, {}, 1000, 0, 0, false)
  }

  /** Block timestamp, oracle answers and funding payments of one transaction, by strategy. A strategy without an answer
    * has a reverting oracle, one without a payment a funding source that fails the call. */
  datatype Env = Env(now: nat, rates: map<Address, nat>, payments: map<Address, nat>)

  function Lookup(m: map<Address, nat>, s: Address): Option<nat> {
    if s in m then Some(m[s]) else None
  }

  // ---- views ----

  function SharesFor(v: State, assets: nat): nat {
    ToShares(assets, v.totalShares, v.totalAssets)
  }

  function AssetsFor(v: State, shares: nat): nat {
    ToAssets(shares, v.totalShares, v.totalAssets)
  }

  function MaxWithdraw(v: State, a: Address): nat {
    AssetsFor(v, At(v.shares, a))
  }

  function Live(v: State, s: Address): bool {
    s in v.strategies && s in v.strategyActive
  }

  function LiveCount(v: State, list: seq<Address>): nat {
    if list == [] then 0 else (if Live(v, list[0]) then 1 else 0) + LiveCount(v, list[1..])
  }

  function FeeOn(profit: nat, performanceFee: nat): nat {
    Scale(profit, performanceFee, BPS)
  }

  function Balance(v: State): nat {
    At(v.pool.token, v.self)
  }

  // ---- loops over the strategy list ----

  function RecallFrom(p: Pool, self: Address, s: Address, amount: nat): Option<Pool> {
    if s !in p.strats then None
    else
      match DN.RecallSpec(p.token, p.strats[s], s, self, amount)
      case None => None
      case Some(t) => Some(p.(token := t))
  }

  /** Recall `per` from each live strategy of `list` until nothing is missing. */
  function RecallLoop(v: State, p: Pool, list: seq<Address>, idle: nat, missing: nat, per: nat): Option<Pool>
    decreases |list|
  {
    if list == [] || missing == 0 then Some(p)
    else if !Live(v, list[0]) then RecallLoop(v, p, list[1..], idle, missing, per)
    else
      match RecallFrom(p, v.self, list[0], per)
      case None => None
      case Some(q) =>
        if At(q.token, v.self) < idle then None
        else
          var got := At(q.token, v.self) - idle;
          RecallLoop(v, q, list[1..], idle + got, if got >= missing then 0 else missing - got, per)
  }

  function RecallShortfall(v: State, needed: nat): Option<Pool> {
    var idle := Balance(v);
    if idle >= needed then Some(v.pool)
    else
      var active := LiveCount(v, v.strategyList);
      if active == 0 then Some(v.pool)
      else RecallLoop(v, v.pool, v.strategyList, idle, needed - idle, (needed - idle) / active + 1)
  }

  function AllocateLoop(v: State, t: Ledger, list: seq<Address>, per: nat): Option<Ledger>
    decreases |list|
  {
    if list == [] then Some(t)
    else if !Live(v, list[0]) || per == 0 then AllocateLoop(v, t, list[1..], per)
    else
      match Transfer(t, v.self, list[0], per)
      case None => None
      case Some(u) => AllocateLoop(v, u, list[1..], per)
  }

  /** A tenth, rounded down. */
  function Reserve(totalAssets: nat): (r: nat)
    ensures 10 * r <= totalAssets < 10 * (r + 1)
  {
    Scale(totalAssets, RESERVE_BPS, BPS)
  }

  function Deployable(v: State): nat {
    if Balance(v) > Reserve(v.totalAssets) then Balance(v) - Reserve(v.totalAssets) else 0
  }

  function HarvestOne(p: Pool, self: Address, s: Address, env: Env): Option<Pool> {
    if s !in p.strats then None
    else
      match DN.HarvestSpec(p.token, p.strats[s], s, env.now, self, Lookup(env.rates, s), Lookup(env.payments, s))
      case None => None
      case Some(r) => Some(p.(token := r.token, strats := p.strats[s := r.d]))
  }

  predicate HasCode(v: State, p: Pool, s: Address) {
    s == v.self || s in p.strats || s in p.others
  }

  /** A contract whose harvest reverts is skipped, the vault itself by its reentrancy guard. A call to an address without
    * code reverts in the caller, where nothing catches it. */
  function HarvestLoop(v: State, p: Pool, list: seq<Address>, env: Env): Option<Pool>
    decreases |list|
  {
    if list == [] then Some(p)
    else if !Live(v, list[0]) then HarvestLoop(v, p, list[1..], env)
    else if !HasCode(v, p, list[0]) then None
    else
      match HarvestOne(p, v.self, list[0], env)
      case None => HarvestLoop(v, p, list[1..], env)
      case Some(q) => HarvestLoop(v, q, list[1..], env)
  }

  // ---- entry points ----

  datatype Call =
    | Deposit(amount: nat)
    | Withdraw(amount: nat)
    | WithdrawUpTo(amount: nat)
    | Allocate
    | Harvest(env: Env)
    | HarvestStrategy(strategy: Address, env: Env)
    | CreditYield(amount: nat)
    | EmergencyWithdraw
    | ReportLoss(amount: nat)
    | AddStrategy(strategy: Address)
    | SetStrategyActive(strategy: Address, active: bool)
    | SetPerformanceFee(fee: nat)
    | SetCaps(tvlCap: nat, perUserCap: nat)
    | SetDepositsPaused(paused: bool)

  function DepositSpec(v: State, sender: Address, amount: nat): Option<State> {
    if v.depositsPaused || amount == 0 then None
    else if v.tvlCap > 0 && v.totalAssets + amount > v.tvlCap then None
    else if v.perUserCap > 0 && MaxWithdraw(v, sender) + amount > v.perUserCap then None
    else
      var sh := SharesFor(v, amount);
      if sh == 0 then None
      else
        match Transfer(v.pool.token, sender, v.self, amount)
        case None => None
        case Some(t) =>
          Some(v.(shares := Put(v.shares, sender, At(v.shares, sender) + sh), totalShares := v.totalShares + sh,
                  totalAssets := v.totalAssets + amount, pool := v.pool.(token := t)))
  }

  /** The books after burning `sh` shares of `sender` for `amount` assets; None where checked arithmetic reverts. */
  function Burn(v: State, sender: Address, sh: nat, amount: nat): Option<State> {
    if sh > At(v.shares, sender) || sh > v.totalShares || amount > v.totalAssets then None
    else
      Some(v.(shares := Put(v.shares, sender, At(v.shares, sender) - sh), totalShares := v.totalShares - sh,
              totalAssets := v.totalAssets - amount))
  }

  function Pay(v: State, p: Pool, to: Address, amount: nat): Option<State> {
    match Transfer(p.token, v.self, to, amount)
    case None => None
    case Some(t) => Some(v.(pool := p.(token := t)))
  }

  function WithdrawSpec(v: State, sender: Address, amount: nat): Option<State> {
    if amount == 0 || SharesFor(v, amount) == 0 then None
    else
      match Burn(v, sender, SharesFor(v, amount), amount)
      case None => None
      case Some(b) =>
        match RecallShortfall(b, amount)
        case None => None
        case Some(p) => Pay(b, p, sender, amount)
  }

  /** How much of the caller's claim is asked for. */
  function Wanted(v: State, sender: Address, amount: nat): nat {
    if amount < MaxWithdraw(v, sender) then amount else MaxWithdraw(v, sender)
  }

  function WithdrawUpToSpec(v: State, sender: Address, amount: nat): Option<State> {
    var want := Wanted(v, sender, amount);
    if amount == 0 || want == 0 then None
    else
      match RecallShortfall(v, want)
      case None => None
      case Some(p) => PayUpTo(v.(pool := p), sender, want)
  }

  /** Pay what the vault holds of `want`, burning only the shares of what is paid. */
  function PayUpTo(v: State, sender: Address, want: nat): Option<State> {
    var paid := if Balance(v) < want then Balance(v) else want;
    if paid == 0 then None
    else
      var sh := SharesFor(v, paid);
      match Burn(v, sender, if sh > At(v.shares, sender) then At(v.shares, sender) else sh, paid)
      case None => None
      case Some(b) => Pay(b, b.pool, sender, paid)
  }

  function AllocateSpec(v: State, sender: Address): Option<State> {
    if sender != v.owner then None
    else if Deployable(v) == 0 || LiveCount(v, v.strategyList) == 0 then Some(v)
    else
      match AllocateLoop(v, v.pool.token, v.strategyList, Deployable(v) / LiveCount(v, v.strategyList))
      case None => None
      case Some(t) => Some(v.(pool := v.pool.(token := t)))
  }

  function HarvestSpec(v: State, env: Env): Option<State> {
    match HarvestLoop(v, v.pool, v.strategyList, env)
    case None => None
    case Some(p) => CreditSpec(v, p)
  }

  /** The fee on what the sweeps brought in leaves; the rest is credited. */
  function CreditSpec(v: State, p: Pool): Option<State> {
    if At(p.token, v.self) < Balance(v) then None
    else
      var profit := At(p.token, v.self) - Balance(v);
      var fee := FeeOn(profit, v.performanceFee);
      var credit := if profit > fee then profit - fee else 0;
      if fee == 0 then Some(v.(pool := p, totalAssets := v.totalAssets + credit))
      else
        match Transfer(p.token, v.self, v.feeDistributor, fee)
        case None => None
        case Some(t) => Some(v.(pool := p.(token := t), totalAssets := v.totalAssets + credit))
  }

  function EmergencyWithdrawSpec(v: State, sender: Address): Option<State> {
    if sender != v.owner then None
    else if Balance(v) == 0 then Some(v)
    else if v.totalAssets < Balance(v) then None
    else Pay(v.(totalAssets := v.totalAssets - Balance(v)), v.pool, sender, Balance(v))
  }

  function Apply(v: State, sender: Address, call: Call): Option<State> {
    match call
    case Deposit(amount) => DepositSpec(v, sender, amount)
    case Withdraw(amount) => WithdrawSpec(v, sender, amount)
    case WithdrawUpTo(amount) => WithdrawUpToSpec(v, sender, amount)
    case Allocate => AllocateSpec(v, sender)
    case Harvest(env) => HarvestSpec(v, env)
    case HarvestStrategy(s, env) =>
      if sender != v.owner || !Live(v, s) then None
      else
        (match HarvestOne(v.pool, v.self, s, env)
         case None => None
         case Some(p) => Some(v.(pool := p)))
    case CreditYield(amount) =>
      if sender != v.owner || amount == 0 || Balance(v) < amount then None
      else Some(v.(totalAssets := v.totalAssets + amount))
    case EmergencyWithdraw => EmergencyWithdrawSpec(v, sender)
    case ReportLoss(amount) =>
      if sender != v.owner || amount > v.totalAssets then None else Some(v.(totalAssets := v.totalAssets - amount))
    case AddStrategy(s) =>
      if sender != v.owner || s == 0 then None
      else Some(v.(strategies := v.strategies + {s}, strategyActive := v.strategyActive + {s},
                   strategyList := v.strategyList + [s]))
    case SetStrategyActive(s, active) =>
      if sender != v.owner || s !in v.strategies then None
      else Some(v.(strategyActive := if active then v.strategyActive + {s} else v.strategyActive - {s}))
    case SetPerformanceFee(fee) =>
      if sender != v.owner || fee > 10000 then None else Some(v.(performanceFee := fee))
    case SetCaps(tvlCap, perUserCap) =>
      if sender != v.owner then None else Some(v.(tvlCap := tvlCap, perUserCap := perUserCap))
    case SetDepositsPaused(paused) =>
      if sender != v.owner then None else Some(v.(depositsPaused := paused))
  }
}
