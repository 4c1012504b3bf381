/** MorphoStrategy: a supplied position whose growth, and nothing else, is swept as yield. The lending market is an
  * input: it may move the position's value at any time, inside an unwind too. */
module Morpho {
  import opened Common
  import VaultMath

  const BPS: nat := 10000
  const MAX_BUFFER_BPS: nat := 5000

  /** The strategy's shares in the market, with the market's total assets and shares. */
  datatype Market = Market(shares: nat, totalSupplyAssets: nat, totalSupplyShares: nat)

  /** Value of the position, rounded down. */
  function PositionValue(m: Market): nat {
    if m.shares == 0 || m.totalSupplyShares == 0 then 0
    else VaultMath.Scale(m.shares, m.totalSupplyAssets, m.totalSupplyShares)
  }

  /** The shares an unwind asks for, rounded up and capped by the position. */
  function SharesOut(m: Market, need: nat): nat
    requires m.totalSupplyAssets > 0
  {
    var scaled: nat := need * m.totalSupplyShares;
    var out := (scaled + m.totalSupplyAssets - 1) / m.totalSupplyAssets;
    if out > m.shares then m.shares else out
  }

  /** What the market answers to a withdrawal of so many shares: the tokens paid and the market after. Where it has no
    * answer it is illiquid and the withdrawal fails. */
  datatype Reply = Reply(received: nat, after: Market)

  datatype State = State(
    self: Address,
    owner: Address,
    keeper: Address,
    vault: Address,
    isActive: bool,
    usdc: Ledger,
    market: Market,
    bufferBps: nat,
    lastHarvestPosition: nat)

  function Deployed(self: Address, owner: Address, usdc: Ledger): State {
    State(self, owner, 0, 0, true, usdc, Market(0, 0, 0), 0, 0)
  }

  /** `after` is the market after the supply, None where the supply reverts. */
  datatype Call =
    | Deploy(after: Option<Market>)
    | Recall(amount: nat, replies: map<nat, Reply>)
    | Harvest(replies: map<nat, Reply>)
    | SetBufferBps(bufferBps: nat)
    | SetActive(active: bool)
    | SetKeeper(keeper: Address)
    | SetVault(vault: Address)

  function Idle(s: State): nat {
    At(s.usdc, s.self)
  }

  function Bps(amount: nat, bps: nat): nat {
    VaultMath.Scale(amount, bps, BPS)
  }

  /** Ask the market for `need`; a failed withdrawal changes nothing. */
  function Unwind(s: State, need: nat, replies: map<nat, Reply>): State
    requires 0 < need <= PositionValue(s.market)
  {
    UnwindAsksFewestSharesWorthIt(s.market, need);
    var out := SharesOut(s.market, need);
    if out !in replies then s
    else s.(usdc := Put(s.usdc, s.self, Idle(s) + replies[out].received), market := replies[out].after)
  }

  function RecallSpec(s: State, amount: nat, replies: map<nat, Reply>): Option<State> {
    var need := Least(Minus(amount, Idle(s)), PositionValue(s.market));
    var u := if need > 0 then Unwind(s, need, replies) else s;
    var sent := Least(amount, Idle(u));
    if sent == 0 then Some(u)
    else
      match Transfer(u.usdc, u.self, u.vault, sent)
      case None => None
      case Some(t) => Some(u.(usdc := t, lastHarvestPosition := PositionValue(u.market)))
  }

  /** What a vault harvest can sweep of `accrued` once the position is unwound. */
  function Sweep(u: State, accrued: nat): nat {
    Least(accrued, Minus(Idle(u), Bps(Idle(u) + PositionValue(u.market), u.bufferBps)))
  }

  function HarvestSpec(s: State, replies: map<nat, Reply>): Option<State> {
    var pv := PositionValue(s.market);
    if pv <= s.lastHarvestPosition then Some(s.(lastHarvestPosition := pv))
    else
      var accrued := pv - s.lastHarvestPosition;
      var u := if Idle(s) < accrued then Unwind(s, accrued - Idle(s), replies) else s;
      if Sweep(u, accrued) == 0 then Some(u)
      else
        match Transfer(u.usdc, u.self, u.vault, Sweep(u, accrued))
        case None => None
        case Some(t) => Some(u.(usdc := t, lastHarvestPosition := PositionValue(u.market)))
  }

  /** What `Deploy` supplies: idle above the buffer. */
  function Supplied(s: State): nat {
    Minus(Idle(s), Bps(Idle(s), s.bufferBps))
  }

  function Apply(s: State, sender: Address, call: Call): Option<State> {
    match call
    case Deploy(after) =>
      if (sender != s.owner && sender != s.keeper) || !s.isActive || Supplied(s) == 0 || after.None? then None
      else
        Some(s.(usdc := Put(s.usdc, s.self, Idle(s) - Supplied(s)), market := after.value,
                lastHarvestPosition := PositionValue(after.value)))
    case Recall(amount, replies) =>
      if sender != s.vault then None else if amount == 0 then Some(s) else RecallSpec(s, amount, replies)
    case Harvest(replies) =>
      if !s.isActive then None else if sender != s.vault then Some(s) else HarvestSpec(s, replies)
    case SetBufferBps(bufferBps) =>
      if sender != s.owner || bufferBps > MAX_BUFFER_BPS then None else Some(s.(bufferBps := bufferBps))
    case SetActive(active) => if sender != s.owner then None else Some(s.(isActive := active))
    case SetKeeper(keeper) => if sender != s.owner || keeper == 0 then None else Some(s.(keeper := keeper))
    case SetVault(vault) => if sender != s.owner || vault == 0 then None else Some(s.(vault := vault))
  }

  // ---- unwinding ----

  /** For a need within the position's value the request is the fewest shares worth it, and never divides by zero. */
  lemma UnwindAsksFewestSharesWorthIt(m: Market, need: nat)
    requires 0 < need <= PositionValue(m)
    ensures m.totalSupplyAssets > 0
    ensures var out := SharesOut(m, need);
            && 0 < out <= m.shares
            && need <= PositionValue(m.(shares := out))
            && PositionValue(m.(shares := out - 1)) < need
  {
    var tsa, tss := m.totalSupplyAssets, m.totalSupplyShares;
    VaultMath.ScaleBounds(m.shares, tsa, tss);
    if tsa == 0 {
      assert m.shares * tsa == 0;
      VaultMath.Cancel(PositionValue(m), 0, tss);
    }
    var scaled: nat := need * tss;
    var out := (scaled + tsa - 1) / tsa;
    CeilingDivision(scaled, tsa);
    assert scaled <= PositionValue(m) * tss by { VaultMath.Cancel(need, PositionValue(m), tss); }
    VaultMath.Cancel(out - 1, m.shares, tsa);
    assert out > 0 by {
      VaultMath.Positive(need, tss);
      VaultMath.Cancel(0, out, tsa);
    }
    VaultMath.ScaleBounds(out, tsa, tss);
    VaultMath.Cancel(need, VaultMath.Scale(out, tsa, tss) + 1, tss);
    VaultMath.ScaleBounds(out - 1, tsa, tss);
    VaultMath.Cancel(VaultMath.Scale(out - 1, tsa, tss), need, tss);
  }

  /** The position is worth the floor of its part of the market, nothing without shares. */
  lemma PositionIsFloor(m: Market)
    ensures m.shares == 0 || m.totalSupplyShares == 0 ==> PositionValue(m) == 0
    ensures m.shares > 0 && m.totalSupplyShares > 0 ==>
              PositionValue(m) * m.totalSupplyShares <= m.shares * m.totalSupplyAssets
                                                      < (PositionValue(m) + 1) * m.totalSupplyShares
  {
    if m.totalSupplyShares > 0 { VaultMath.ScaleBounds(m.shares, m.totalSupplyAssets, m.totalSupplyShares); }
  }

  lemma MoreSharesWorthMore(m: Market, k: nat, l: nat)
    requires k <= l
    ensures PositionValue(m.(shares := k)) <= PositionValue(m.(shares := l))
  {
    var v, w := PositionValue(m.(shares := k)), PositionValue(m.(shares := l));
    PositionIsFloor(m.(shares := k));
    PositionIsFloor(m.(shares := l));
    if k > 0 && m.totalSupplyShares > 0 {
      assert k * m.totalSupplyAssets <= l * m.totalSupplyAssets;
      VaultMath.Cancel(v, w + 1, m.totalSupplyShares);
    }
  }

  /** `n` is the fewest shares worth `need`. */
  predicate Fewest(m: Market, need: nat, n: nat) {
    n > 0 && need <= PositionValue(m.(shares := n)) && PositionValue(m.(shares := n - 1)) < need
  }

  lemma FewestIsAsked(m: Market, need: nat, n: nat)
    requires 0 < need <= PositionValue(m) && Fewest(m, need, n)
    ensures m.totalSupplyAssets > 0 && n == SharesOut(m, need)
  {
    UnwindAsksFewestSharesWorthIt(m, need);
    var out := SharesOut(m, need);
    if n < out { MoreSharesWorthMore(m, n, out - 1); }
    if out < n { MoreSharesWorthMore(m, out, n - 1); }
  }

  lemma CeilingDivision(x: nat, d: nat)
    requires d > 0
    ensures var q := (x + d - 1) / d; (q - 1) * d < x <= q * d
  {
  }

  // ---- runs ----

  /** Somebody calls; the market moves the position; USDC moves elsewhere, some of it into the strategy. */
  datatype Event = Act(sender: Address, call: Call) | MarketMoves(after: Market) | Outside(usdc: Ledger, arrived: nat)

  /** The strategy, the total growth of the position other than by deploying into it, and the total swept as yield. */
  datatype World = World(s: State, growth: nat, swept: nat)

  /** What the position grew from one market state to another. */
  function Growth(before: Market, after: Market): nat {
    Minus(PositionValue(after), PositionValue(before))
  }

  function Step(w: World, e: Event): World {
    match e
    case Outside(usdc, arrived) => w.(s := w.s.(usdc := Put(usdc, w.s.self, Idle(w.s) + arrived)))
    case MarketMoves(after) =>
      w.(s := w.s.(market := after), growth := w.growth + Growth(w.s.market, after))
    case Act(sender, call) =>
      match Apply(w.s, sender, call)
      case None => w
      case Some(s) =>
        World(s, w.growth + (if call.Deploy? then 0 else Growth(w.s.market, s.market)),
              w.swept + (if call.Harvest? then Minus(At(s.usdc, s.vault), At(w.s.usdc, s.vault)) else 0))
  }

  ghost function Run(w: World, es: seq<Event>): World {
    Fold(Step, w, es)
  }

  /** The owner does not make the strategy its own vault. */
  predicate NotSelf(self: Address, e: Event) {
    e.Act? && e.call.SetVault? ==> e.call.vault != self
  }

  /** Growth not yet swept, as the next harvest would read it. */
  function Unswept(s: State): nat {
    Minus(PositionValue(s.market), s.lastHarvestPosition)
  }

  ghost predicate OnlyGrowthSwept(w: World) {
    w.s.vault != w.s.self && w.swept + Unswept(w.s) <= w.growth
  }

  lemma StepOnlyGrowth(w: World, e: Event)
    requires OnlyGrowthSwept(w) && NotSelf(w.s.self, e)
    ensures OnlyGrowthSwept(Step(w, e)) && Step(w, e).s.self == w.s.self
  {
    hide PositionValue, RecallSpec, HarvestSpec, Supplied;
    if e.Act? && e.call.Harvest? {
      HarvestOnlyGrowth(w, e.sender, e.call.replies);
    } else if e.Act? && e.call.Recall? {
      RecallOnlyGrowth(w, e.sender, e.call.amount, e.call.replies);
    }
  }

  lemma RecallOnlyGrowth(w: World, sender: Address, amount: nat, replies: map<nat, Reply>)
    requires OnlyGrowthSwept(w)
    ensures OnlyGrowthSwept(Step(w, Act(sender, Recall(amount, replies))))
    ensures Step(w, Act(sender, Recall(amount, replies))).s.self == w.s.self
  {
    hide PositionValue, Transfer;
  }

  lemma HarvestOnlyGrowth(w: World, sender: Address, replies: map<nat, Reply>)
    requires OnlyGrowthSwept(w)
    ensures OnlyGrowthSwept(Step(w, Act(sender, Harvest(replies))))
    ensures Step(w, Act(sender, Harvest(replies))).s.self == w.s.self
  {
    hide PositionValue, Bps;
  }

  /** Over any run, what was swept as yield plus what could still be swept is at most what the position grew other than
    * by deploying into it: no principal, recalled, redeployed or newly allocated, is ever booked as yield. */
  lemma {:induction false} PrincipalNeverSwept(w: World, es: seq<Event>)
    requires OnlyGrowthSwept(w) && forall i :: 0 <= i < |es| ==> NotSelf(w.s.self, es[i])
    ensures OnlyGrowthSwept(Run(w, es)) && Run(w, es).s.self == w.s.self
  {
    hide OnlyGrowthSwept, Step;
    if es != [] {
      PrincipalNeverSwept(w, es[..|es| - 1]);
      StepOnlyGrowth(Run(w, es[..|es| - 1]), es[|es| - 1]);
    }
  }

  lemma DeployedSweptNothing(self: Address, owner: Address, usdc: Ledger)
    requires self != 0
    ensures OnlyGrowthSwept(World(Deployed(self, owner, usdc), 0, 0))
  {
  }

  /** A recall by the vault never reverts, not even on an illiquid market: it pays what is idle after the unwind, up to
    * the request. */
  lemma RecallNeverReverts(s: State, amount: nat, replies: map<nat, Reply>)
    requires s.vault != s.self
    ensures Apply(s, s.vault, Recall(amount, replies)).Some?
    ensures var t := Apply(s, s.vault, Recall(amount, replies)).value;
            var paid := At(t.usdc, s.vault) - At(s.usdc, s.vault);
            && Least(amount, Idle(s)) <= paid <= amount
            && (paid < amount ==> Idle(t) == 0)
            && (paid > 0 ==> t.lastHarvestPosition == PositionValue(t.market))
            && (amount <= Idle(s) ==> t.market == s.market)
  {
    hide PositionValue, Transfer;
    if amount > 0 {
      var need := Least(Minus(amount, Idle(s)), PositionValue(s.market));
      var u := if need > 0 then Unwind(s, need, replies) else s;
      TransferMoves(u.usdc, u.self, u.vault, Least(amount, Idle(u)));
    }
  }

  /** What is idle and the market once `need` is unwound: the fewest shares worth it are withdrawn, if the market answers. */
  predicate Unwound(s: State, need: nat, replies: map<nat, Reply>, n: nat, idle: nat, after: Market) {
    if need == 0 then idle == Idle(s) && after == s.market
    else
      && Fewest(s.market, need, n)
      && (if n in replies then idle == Idle(s) + replies[n].received && after == replies[n].after
          else idle == Idle(s) && after == s.market)
  }

  /** A recall unwinds what idle does not cover, as far as the position goes, and pays all that is then idle, up to the
    * request. */
  lemma RecallPays(s: State, amount: nat, replies: map<nat, Reply>, n: nat, idle: nat, after: Market)
    requires s.vault != s.self
    requires Unwound(s, Least(Minus(amount, Idle(s)), PositionValue(s.market)), replies, n, idle, after)
    ensures var t := Apply(s, s.vault, Recall(amount, replies)).value;
            var paid := Least(amount, idle);
            && At(t.usdc, s.vault) == At(s.usdc, s.vault) + paid
            && Idle(t) == idle - paid
            && t == s.(usdc := t.usdc, market := after,
                       lastHarvestPosition := if paid > 0 then PositionValue(after) else s.lastHarvestPosition)
  {
    hide PositionValue, Transfer, Unwind, SharesOut;
    var need := Least(Minus(amount, Idle(s)), PositionValue(s.market));
    if need > 0 { UnwindsFewest(s, need, replies, n, idle, after); }
    var u := if need > 0 then Unwind(s, need, replies) else s;
    TransferMoves(u.usdc, u.self, u.vault, Least(amount, Idle(u)));
  }

  /** A vault harvest unwinds what of the growth idle does not cover and pays the growth, as far as idle then exceeds the
    * buffer on idle and position together. Without growth it only takes the position as its new baseline. */
  lemma HarvestPays(s: State, replies: map<nat, Reply>, n: nat, idle: nat, after: Market, buffer: nat)
    requires s.isActive && s.vault != s.self
    requires Unwound(s, Minus(Unswept(s), Idle(s)), replies, n, idle, after)
    requires BPS * buffer <= (idle + PositionValue(after)) * s.bufferBps < BPS * (buffer + 1)
    ensures var t := Apply(s, s.vault, Harvest(replies)).value;
            var paid := Least(Unswept(s), Minus(idle, buffer));
            && At(t.usdc, s.vault) == At(s.usdc, s.vault) + paid
            && Idle(t) == idle - paid
            && t == s.(usdc := t.usdc, market := after,
                       lastHarvestPosition := if Unswept(s) == 0 then PositionValue(s.market)
                                              else if paid > 0 then PositionValue(after) else s.lastHarvestPosition)
  {
    hide PositionValue, Transfer, Sweep, Unwind, SharesOut;
    var accrued := Unswept(s);
    if accrued > 0 {
      var u := if Idle(s) < accrued then Unwind(s, accrued - Idle(s), replies) else s;
      if Idle(s) < accrued { UnwindsFewest(s, accrued - Idle(s), replies, n, idle, after); }
      SweepIs(u, accrued, buffer);
      TransferMoves(u.usdc, u.self, u.vault, Sweep(u, accrued));
    }
  }

  lemma UnwindsFewest(s: State, need: nat, replies: map<nat, Reply>, n: nat, idle: nat, after: Market)
    requires 0 < need <= PositionValue(s.market) && Unwound(s, need, replies, n, idle, after)
    ensures Unwind(s, need, replies) == s.(usdc := Unwind(s, need, replies).usdc, market := after)
    ensures Idle(Unwind(s, need, replies)) == idle
    ensures forall a: Address :: a != s.self ==> At(Unwind(s, need, replies).usdc, a) == At(s.usdc, a)
  {
    FewestIsAsked(s.market, need, n);
    hide PositionValue, SharesOut;
  }

  lemma SweepIs(u: State, accrued: nat, buffer: nat)
    requires BPS * buffer <= (Idle(u) + PositionValue(u.market)) * u.bufferBps < BPS * (buffer + 1)
    ensures Sweep(u, accrued) == Least(accrued, Minus(Idle(u), buffer))
  {
    hide PositionValue, Bps;
    BpsIs(Idle(u) + PositionValue(u.market), u.bufferBps, buffer);
  }

  lemma BpsIsFloor(amount: nat, bps: nat)
    ensures BPS * Bps(amount, bps) <= amount * bps < BPS * (Bps(amount, bps) + 1)
  {
    VaultMath.ScaleBounds(amount, bps, BPS);
  }

  lemma BpsIs(amount: nat, bps: nat, r: nat)
    requires BPS * r <= amount * bps < BPS * (r + 1)
    ensures Bps(amount, bps) == r
  {
    VaultMath.ScaleBounds(amount, bps, BPS);
  }

  /** Exactly when the setters go through; a harvest by anyone but the vault changes nothing. */
  lemma OthersSet(s: State, sender: Address, amount: nat, flag: bool, replies: map<nat, Reply>)
    ensures Apply(s, sender, SetBufferBps(amount))
         == if sender == s.owner && amount <= 5000 then Some(s.(bufferBps := amount)) else None
    ensures Apply(s, sender, SetActive(flag)) == if sender == s.owner then Some(s.(isActive := flag)) else None
    ensures Apply(s, sender, SetKeeper(amount)) == if sender == s.owner && amount != 0 then Some(s.(keeper := amount)) else None
    ensures Apply(s, sender, SetVault(amount)) == if sender == s.owner && amount != 0 then Some(s.(vault := amount)) else None
    ensures sender != s.vault ==> Apply(s, sender, Harvest(replies)) == if s.isActive then Some(s) else None
    ensures sender != s.vault ==> Apply(s, sender, Recall(amount, replies)).None?
  {
  }

  lemma BpsBounds(amount: nat, bps: nat)
    requires bps <= MAX_BUFFER_BPS
    ensures 2 * Bps(amount, bps) <= amount
  {
    hide VaultMath.Scale;
    VaultMath.ScaleBounds(amount, bps, BPS);
    if amount > 0 {
      VaultMath.Cancel(bps, MAX_BUFFER_BPS, amount);
    }
    assert amount * bps <= amount * MAX_BUFFER_BPS;
  }

  /** Deploying keeps exactly the buffer idle, supplies at least half, and leaves nothing to read as yield. */
  lemma DeployLeavesBuffer(s: State, sender: Address, after: Option<Market>)
    requires s.bufferBps <= MAX_BUFFER_BPS
    ensures Apply(s, sender, Deploy(after)).Some? <==>
              (sender == s.owner || sender == s.keeper) && s.isActive && Idle(s) > 0 && after.Some?
    ensures Apply(s, sender, Deploy(after)).Some? ==>
              var t := Apply(s, sender, Deploy(after)).value;
              && BPS * Idle(t) <= Idle(s) * s.bufferBps < BPS * (Idle(t) + 1)
              && 2 * Idle(t) <= Idle(s) && Unswept(t) == 0
              && t == s.(usdc := Put(s.usdc, s.self, Idle(t)), market := after.value,
                         lastHarvestPosition := PositionValue(after.value))
  {
    hide PositionValue;
    BpsBounds(Idle(s), s.bufferBps);
    VaultMath.ScaleBounds(Idle(s), s.bufferBps, BPS);
  }

  /** A vault harvest pays no more than the growth it read, keeps the buffer idle, and re-baselines when it pays. */
  lemma HarvestLeavesBuffer(s: State, replies: map<nat, Reply>)
    requires s.isActive && s.vault != s.self
    ensures Apply(s, s.vault, Harvest(replies)).Some?
    ensures var t := Apply(s, s.vault, Harvest(replies)).value;
            var paid := At(t.usdc, s.vault) - At(s.usdc, s.vault);
            && 0 <= paid <= Unswept(s)
            && (paid > 0 ==> Bps(Idle(t) + paid + PositionValue(t.market), s.bufferBps) <= Idle(t))
            && (paid > 0 || Unswept(s) == 0 ==> Unswept(t) == 0)
  {
    hide PositionValue, Bps;
  }

  // ---- the contract ----

  class MorphoStrategy {
    const self: Address
    const owner: Address
    var keeper: Address
    var vault: Address
    var isActive: bool
    var usdc: Ledger
    var market: Market
    var bufferBps: nat
    var lastHarvestPosition: nat
    ghost var growth: nat // all growth of the position other than by deploying into it
    ghost var swept: nat // all that was swept as yield

    constructor (self: Address, owner: Address, usdc: Ledger)
      requires self != 0
      ensures Valid() && growth == swept == 0
      ensures Abs() == Deployed(self, owner, usdc)
    {
      this.self, this.owner, this.usdc := self, owner, usdc;
      keeper, vault, isActive, market, bufferBps, lastHarvestPosition := 0, 0, true, Market(0, 0, 0), 0, 0;
      growth, swept := 0, 0;
    }

    function Abs(): State
      reads this
    {
      State(self, owner, keeper, vault, isActive, usdc, market, bufferBps, lastHarvestPosition)
    }

    /** The invariant of every run: nothing but growth was or can be swept. */
    ghost predicate Valid()
      reads this
    {
      OnlyGrowthSwept(World(Abs(), growth, swept)) && vault != self && bufferBps <= MAX_BUFFER_BPS
    }

    /** Take down what a completed call saw the position grow and swept. */
    ghost method Account(before: State, sender: Address, call: Call)
      requires OnlyGrowthSwept(World(before, growth, swept)) && vault != self && bufferBps <= MAX_BUFFER_BPS
      requires !call.SetVault?
      requires Apply(before, sender, call) == Some(Abs())
      modifies this`growth, this`swept
      ensures Valid()
      ensures World(Abs(), growth, swept) == Step(World(before, old(growth), old(swept)), Act(sender, call))
    {
      hide Apply, OnlyGrowthSwept, Growth;
      var w := World(before, growth, swept);
      StepOnlyGrowth(w, Act(sender, call));
      var x := Step(w, Act(sender, call));
      growth, swept := x.growth, x.swept;
    }

    method DoUnwind(need: nat, replies: map<nat, Reply>) returns (sharesOut: nat)
      requires 0 < need <= PositionValue(market)
      modifies this`usdc, this`market
      ensures Abs() == Unwind(old(Abs()), need, replies)
      ensures forall a: Address :: a != self ==> At(usdc, a) == old(At(usdc, a))
      ensures sharesOut <= old(market).shares && need <= PositionValue(old(market).(shares := sharesOut))
    {
      UnwindAsksFewestSharesWorthIt(market, need);
      hide PositionValue;
      sharesOut := SharesOut(market, need);
      if market.shares == 0 || market.totalSupplyShares == 0 { return; }
      if sharesOut in replies {
        usdc := Put(usdc, self, At(usdc, self) + replies[sharesOut].received);
        market := replies[sharesOut].after;
      }
    }

    /** What is deployed is neither growth nor yield: the baseline moves with it. */
    method DoDeploy(sender: Address, after: Option<Market>) returns (ok: bool)
      requires Valid()
      modifies this
      ensures Valid() && growth == old(growth) && swept == old(swept)
      ensures ok <==> (sender == owner || sender == keeper) && isActive && old(Idle(Abs())) > 0 && after.Some?
      ensures ok ==> && Unswept(Abs()) == 0
                     && Idle(Abs()) == Bps(old(Idle(Abs())), bufferBps) && 2 * Idle(Abs()) <= old(Idle(Abs()))
      ensures Ends(Apply(old(Abs()), sender, Deploy(after)), old(Abs()), ok, Abs())
    {
      hide PositionValue, Bps, OnlyGrowthSwept;
      BpsBounds(At(usdc, self), bufferBps);
      if (sender != owner && sender != keeper) || !isActive { return false; }
      var bal := At(usdc, self);
      var buffer := Bps(bal, bufferBps);
      var amount := if bal > buffer then bal - buffer else 0;
      if amount == 0 || after.None? { return false; }
      ghost var before := Abs();
      usdc := Put(usdc, self, bal - amount);
      market := after.value; // the market's supply
      lastHarvestPosition := PositionValue(market);
      Account(before, sender, Deploy(after));
      return true;
    }

    /** What a recall has to unwind. */
    function Uncovered(amount: nat): nat
      reads this
    {
      Least(Minus(amount, At(usdc, self)), PositionValue(market))
    }

    method DoRecall(sender: Address, amount: nat, replies: map<nat, Reply>) returns (ok: bool)
      requires Valid()
      modifies this
      ensures Valid() && swept == old(swept)
      ensures ok <==> sender == vault
      ensures ok ==> forall n: nat, idle: nat, after :: Unwound(old(Abs()), old(Uncovered(amount)), replies, n, idle, after) ==>
                       market == after && At(usdc, vault) == old(At(usdc, vault)) + Least(amount, idle)
      ensures Ends(Apply(old(Abs()), sender, Recall(amount, replies)), old(Abs()), ok, Abs())
    {
      hide PositionValue, OnlyGrowthSwept, Unwound, RecallSpec;
      if sender != vault { return false; }
      ghost var before := Abs();
      ghost var need := Uncovered(amount);
      if amount > 0 { DoPay(amount, replies); }
      Account(before, sender, Recall(amount, replies));
      forall n: nat, idle: nat, after | Unwound(before, need, replies, n, idle, after)
        ensures market == after && At(usdc, vault) == At(before.usdc, vault) + Least(amount, idle)
      {
        RecallPays(before, amount, replies, n, idle, after);
      }
      return true;
    }

    /** Unwind what idle does not cover, then pay what is there. */
    method DoPay(amount: nat, replies: map<nat, Reply>)
      modifies this`usdc, this`market, this`lastHarvestPosition
      ensures RecallSpec(old(Abs()), amount, replies) == Some(Abs())
    {
      hide PositionValue, Unwind;
      var idle := At(usdc, self);
      if idle < amount {
        var need := amount - idle;
        var pv := PositionValue(market);
        if need > pv { need := pv; }
        if need > 0 { var _ := DoUnwind(need, replies); }
      }
      var bal := At(usdc, self);
      var sent := if amount > bal then bal else amount;
      if sent > 0 {
        lastHarvestPosition := PositionValue(market);
        usdc := Transfer(usdc, self, vault, sent).value;
      }
    }

    /** What a harvest has to unwind, and what it can then sweep. */
    function Lacking(): nat
      reads this
    {
      Minus(Unswept(Abs()), At(usdc, self))
    }

    function Sweepable(grown: nat, idle: nat, after: Market): nat
      reads this
    {
      Least(grown, Minus(idle, Bps(idle + PositionValue(after), bufferBps)))
    }

    method DoHarvest(sender: Address, replies: map<nat, Reply>) returns (ok: bool, profit: nat)
      requires Valid()
      modifies this
      ensures Valid()
      ensures ok <==> isActive
      ensures profit == swept - old(swept) <= Unswept(old(Abs()))
      ensures ok && sender == vault ==>
                forall n: nat, idle: nat, after :: Unwound(old(Abs()), old(Lacking()), replies, n, idle, after) ==>
                  market == after && profit == Sweepable(old(Unswept(Abs())), idle, after)
      ensures Ends(Apply(old(Abs()), sender, Harvest(replies)), old(Abs()), ok, Abs())
    {
      hide PositionValue, OnlyGrowthSwept, Unwound, HarvestSpec, Bps;
      if !isActive { return false, 0; }
      ghost var before := Abs();
      ghost var need, grown := Lacking(), Unswept(Abs());
      profit := 0;
      if sender == vault { profit := DoSweep(replies); }
      Account(before, sender, Harvest(replies));
      forall n: nat, idle: nat, after | sender == vault && Unwound(before, need, replies, n, idle, after)
        ensures market == after && profit == Sweepable(grown, idle, after)
      {
        BpsIsFloor(idle + PositionValue(after), bufferBps);
        HarvestPays(before, replies, n, idle, after, Bps(idle + PositionValue(after), bufferBps));
      }
      return true, profit;
    }

    /** Growth since the baseline goes to the vault as far as the unwound idle exceeds the buffer. */
    method DoSweep(replies: map<nat, Reply>) returns (sweep: nat)
      requires vault != self
      modifies this`usdc, this`market, this`lastHarvestPosition
      ensures sweep <= Unswept(old(Abs()))
      ensures At(usdc, vault) == old(At(usdc, vault)) + sweep
      ensures HarvestSpec(old(Abs()), replies) == Some(Abs())
    {
      hide PositionValue, Bps, Unwind, Transfer;
      var pv := PositionValue(market);
      if pv <= lastHarvestPosition {
        lastHarvestPosition := pv;
        return 0;
      }
      var accrued := pv - lastHarvestPosition;
      var bal := At(usdc, self);
      if bal < accrued {
        var _ := DoUnwind(accrued - bal, replies);
        bal := At(usdc, self);
      }
      var buffer := Bps(bal + PositionValue(market), bufferBps);
      var sweepable := if bal > buffer then bal - buffer else 0;
      sweep := if accrued < sweepable then accrued else sweepable;
      if sweep == 0 { return 0; }
      lastHarvestPosition := PositionValue(market);
      TransferMoves(usdc, self, vault, sweep);
      usdc := Transfer(usdc, self, vault, sweep).value;
    }
  }
}
