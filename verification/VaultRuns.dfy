/** Whole runs of the vault with its strategies: exact backing, share accounting and the price floor. */
module VaultRuns {
  import opened Common
  import opened VaultMath
  import opened Vault
  import opened VaultLoops
  import opened VaultCalls
  import DN = DeltaNeutral

  /** Somebody calls the vault; somebody calls a strategy; tokens move between other accounts or into the
    * protocol (donations, fees routed to the vault); a strategy's owner rewires it. */
  datatype Event =
    | CallVault(sender: Address, call: Call)
    | CallStrategy(sender: Address, s: Address, now: nat, request: DN.Call)
    | Move(from: Address, to: Address, amount: nat)
    | Rewire(s: Address, keeper: Address, vault: Address, fundingSource: Address)

  /** The vault and the history that its books cannot see: tokens that arrived without being booked, losses written
    * off, profit swept by harvestStrategy without being credited, yield credited, and funding booked beyond what its
    * sources paid. */
  datatype World = World(v: State, arrived: int, writtenOff: int, swept: int, credited: int, unpaid: int)

  function Start(v: State): World {
    World(v, 0, 0, 0, 0, 0)
  }

  predicate InPool(v: State, a: Address) {
    a == v.self || a in v.pool.strats
  }

  /** The contracts move their tokens only by their own code, only deployed strategies are listed, and a strategy
    * is wired to this vault or to none, with outside funding. */
  predicate Admissible(v: State, e: Event) {
    match e
    case CallVault(sender, call) => Outsider(v, sender) && (call.AddStrategy? ==> call.strategy in v.pool.strats)
    case CallStrategy(sender, s, _, _) => Outsider(v, sender) && sender != 0 && s in v.pool.strats
    case Move(from, _, _) => Outsider(v, from)
    case Rewire(s, _, vault, source) =>
      s in v.pool.strats && (vault == v.self || vault == 0) && Outsider(v, source) && source != v.feeDistributor
  }

  /** Funding booked less funding paid. */
  function Short(f: Dues): int {
    f.booked - f.paid
  }

  ghost function ShortInCall(v: State, call: Call): int {
    match call
    case Harvest(env) => Sum(v.pool.strats.Keys, BookedIn(v, env)) - Sum(v.pool.strats.Keys, PaidIn(v, env))
    case HarvestStrategy(s, env) => Short(HarvestDues(v.pool, s, env))
    case _ => 0
  }

  ghost function Step(w: World, e: Event): World {
    match e
    case CallVault(sender, call) =>
      (match Apply(w.v, sender, call)
       case None => w
       case Some(v) =>
         w.(v := v,
            writtenOff := w.writtenOff + (if call.ReportLoss? then call.amount else 0),
            swept := w.swept + (if call.HarvestStrategy? then Balance(v) - Balance(w.v) else 0),
            credited := w.credited + (if call.CreditYield? then call.amount else 0),
            unpaid := w.unpaid + ShortInCall(w.v, call)))
    case CallStrategy(sender, s, now, call) =>
      if s !in w.v.pool.strats then w
      else
        (match DN.Apply(w.v.pool.token, w.v.pool.strats[s], s, now, sender, call)
         case None => w
         case Some(r) =>
           w.(v := w.v.(pool := w.v.pool.(token := r.token, strats := w.v.pool.strats[s := r.d])),
              unpaid := w.unpaid + Short(DuesOf(w.v.pool.strats[s], now, call))))
    case Move(from, to, amount) =>
      (match Transfer(w.v.pool.token, from, to, amount)
       case None => w
       case Some(t) =>
         w.(v := w.v.(pool := w.v.pool.(token := t)),
            arrived := w.arrived + (if InPool(w.v, to) then amount else 0)))
    case Rewire(s, keeper, vault, source) =>
      if s !in w.v.pool.strats then w
      else
        w.(v := w.v.(pool := w.v.pool.(strats := w.v.pool.strats[s :=
             w.v.pool.strats[s].(keeper := keeper, vault := vault, fundingSource := source)])))
  }

  /** Only completed calls to the vault touch its books. */
  lemma BooksMoveByCalls(w: World, e: Event)
    ensures var x := Step(w, e).v;
            if e.CallVault? && Apply(w.v, e.sender, e.call).Some? then x == Apply(w.v, e.sender, e.call).value
            else x.shares == w.v.shares && x.totalShares == w.v.totalShares && x.totalAssets == w.v.totalAssets
  {
    hide Apply, DN.Apply, Transfer;
  }

  ghost function Run(w: World, es: seq<Event>): World {
    Fold(Step, w, es)
  }

  // ---- backing ----

  ghost function PrincipalOf(p: Pool): Address -> int {
    (s: Address) => Principal(p, s)
  }

  /** The tokens in the vault and in all strategies. */
  ghost function Backing(v: State): int {
    Balance(v) + Sum(v.pool.strats.Keys, Of(v.pool.token))
  }

  /** What the books promise out of it: the vault's assets and the funding strategies have not swept yet. */
  ghost function Promised(v: State): int {
    v.totalAssets + Sum(v.pool.strats.Keys, AccruedOf(v.pool.strats))
  }

  ghost function Slack(v: State): int {
    Backing(v) - Promised(v)
  }

  lemma SlackByPrincipal(v: State)
    ensures Slack(v) == Balance(v) + Sum(v.pool.strats.Keys, PrincipalOf(v.pool)) - v.totalAssets
  {
    SumLinear(v.pool.strats.Keys, Of(v.pool.token), AccruedOf(v.pool.strats), -1, PrincipalOf(v.pool));
  }

  /** A state reached with one strategy's principal lowered. */
  lemma OnePrincipal(v: State, w: State, s: Address, short: int)
    requires w.pool.strats.Keys == v.pool.strats.Keys && s in v.pool.strats
    requires Principal(w.pool, s) == Principal(v.pool, s) - short
    requires forall r :: r in v.pool.strats && r != s ==> Principal(w.pool, r) == Principal(v.pool, r)
    ensures Slack(w) - Slack(v) == (Balance(w) - w.totalAssets) - (Balance(v) - v.totalAssets) - short
  {
    hide Sum, Principal;
    SlackByPrincipal(v);
    SlackByPrincipal(w);
    SumUpdate(v.pool.strats.Keys, PrincipalOf(v.pool), PrincipalOf(w.pool), s);
  }

  lemma SameStrategies(v: State, w: State)
    requires w.pool.strats == v.pool.strats
    ensures Slack(w) - Slack(v) ==
            Balance(w) + Sum(v.pool.strats.Keys, Of(w.pool.token)) - w.totalAssets
            - (Balance(v) + Sum(v.pool.strats.Keys, Of(v.pool.token)) - v.totalAssets)
  {
  }

  lemma PaySlack(v: State, p: Pool, to: Address, amount: nat)
    requires Outsider(v, to) && v.self !in v.pool.strats && p.strats == v.pool.strats && Pay(v, p, to, amount).Some?
    ensures Slack(Pay(v, p, to, amount).value) == Slack(v.(pool := p)) - amount
  {
    var w := Pay(v, p, to, amount).value;
    TransferMoves(p.token, v.self, to, amount);
    TransferSum(p.strats.Keys, p.token, v.self, to, amount);
    SameStrategies(v.(pool := p), w);
  }

  lemma RecallSlack(v: State, needed: nat)
    requires Wired(v, v.pool) && RecallShortfall(v, needed).Some?
    ensures Slack(v.(pool := RecallShortfall(v, needed).value)) == Slack(v)
    ensures RecallShortfall(v, needed).value.strats == v.pool.strats
  {
    RecallIsBounded(v, needed);
    SameStrategies(v, v.(pool := RecallShortfall(v, needed).value));
  }

  lemma BurnSlack(v: State, sender: Address, sh: nat, amount: nat)
    requires Burn(v, sender, sh, amount).Some?
    ensures Slack(Burn(v, sender, sh, amount).value) == Slack(v) + amount
  {
    SameStrategies(v, Burn(v, sender, sh, amount).value);
  }

  lemma WithdrawSlack(v: State, sender: Address, amount: nat)
    requires Healthy(v) && Outsider(v, sender) && WithdrawSpec(v, sender, amount).Some?
    ensures Slack(WithdrawSpec(v, sender, amount).value) == Slack(v)
  {
    hide Slack, RecallShortfall, SharesFor, Burn, Pay, Wired;
    var b := Burn(v, sender, SharesFor(v, amount), amount).value;
    BurnShape(v, sender, SharesFor(v, amount), amount);
    BurnSlack(v, sender, SharesFor(v, amount), amount);
    WiredFollows(v, v.pool, b);
    RecallSlack(b, amount);
    PaySlack(b, RecallShortfall(b, amount).value, sender, amount);
  }

  lemma BurnShape(v: State, sender: Address, sh: nat, amount: nat)
    requires Burn(v, sender, sh, amount).Some?
    ensures var b := Burn(v, sender, sh, amount).value;
            b == v.(shares := b.shares, totalShares := b.totalShares, totalAssets := b.totalAssets)
  {
  }

  lemma WithdrawUpToSlack(v: State, sender: Address, amount: nat)
    requires Healthy(v) && Outsider(v, sender)
    ensures WithdrawUpToSpec(v, sender, amount).Some? ==> Slack(WithdrawUpToSpec(v, sender, amount).value) == Slack(v)
  {
    hide Slack, PayUpTo, Wanted, RecallShortfall;
    if WithdrawUpToSpec(v, sender, amount).Some? {
      var want := Wanted(v, sender, amount);
      RecallSlack(v, want);
      PayUpToSlack(v.(pool := RecallShortfall(v, want).value), sender, want);
    }
  }

  lemma PayUpToSlack(v: State, sender: Address, want: nat)
    requires Outsider(v, sender) && v.self !in v.pool.strats && PayUpTo(v, sender, want).Some?
    ensures Slack(PayUpTo(v, sender, want).value) == Slack(v)
  {
    hide Slack, SharesFor, Burn, Pay;
    var paid := if Balance(v) < want then Balance(v) else want;
    var sh := SharesFor(v, paid);
    var burned := if sh > At(v.shares, sender) then At(v.shares, sender) else sh;
    BurnShape(v, sender, burned, paid);
    BurnSlack(v, sender, burned, paid);
    PaySlack(Burn(v, sender, burned, paid).value, v.pool, sender, paid);
  }

  /** What one call adds to the slack. */
  ghost function SlackAdded(v: State, w: State, call: Call): int {
    match call
    case CreditYield(amount) => 0 - (amount as int)
    case ReportLoss(amount) => amount
    case HarvestStrategy(_, _) => Balance(w) - Balance(v) - ShortInCall(v, call)
    case Harvest(_) => 0 - ShortInCall(v, call)
    case _ => 0
  }

  lemma DepositSlack(v: State, sender: Address, amount: nat)
    requires Healthy(v) && Outsider(v, sender) && DepositSpec(v, sender, amount).Some?
    ensures Slack(DepositSpec(v, sender, amount).value) == Slack(v)
  {
    TransferMoves(v.pool.token, sender, v.self, amount);
    TransferSum(v.pool.strats.Keys, v.pool.token, sender, v.self, amount);
    SameStrategies(v, DepositSpec(v, sender, amount).value);
    hide Slack, SharesFor, AssetsFor, Transfer;
  }

  lemma EmergencySlack(v: State, sender: Address)
    requires Healthy(v) && Outsider(v, sender) && EmergencyWithdrawSpec(v, sender).Some?
    ensures Slack(EmergencyWithdrawSpec(v, sender).value) == Slack(v)
  {
    if Balance(v) > 0 {
      var b := v.(totalAssets := v.totalAssets - Balance(v));
      SameStrategies(v, b);
      PaySlack(b, v.pool, sender, Balance(v));
    }
  }

  lemma HarvestSlack(v: State, sender: Address, env: Env)
    requires Healthy(v) && Apply(v, sender, Harvest(env)).Some?
    ensures Slack(Apply(v, sender, Harvest(env)).value) == Slack(v) - ShortInCall(v, Harvest(env))
  {
    hide Sum, Wired, FeeOn, Apply;
    HarvestCreditsWhatLanded(v, sender, env);
    HarvestFollowsDues(v, sender, env, 0);
    LandedIsFunding(v, sender, env);
  }

  lemma HarvestStrategySlack(v: State, sender: Address, s: Address, env: Env)
    requires Healthy(v) && Apply(v, sender, HarvestStrategy(s, env)).Some?
    ensures var w := Apply(v, sender, HarvestStrategy(s, env)).value;
            Slack(w) == Slack(v) + Balance(w) - Balance(v) - ShortInCall(v, HarvestStrategy(s, env))
  {
    hide Slack, HarvestOne, HarvestDues, Sum, Wired;
    var w := Apply(v, sender, HarvestStrategy(s, env)).value;
    StrategyHarvested(v.pool, v.self, s, env);
    HarvestOnce(v, v.pool, s, env);
    forall r | r in v.pool.strats
      ensures Principal(w.pool, r) == Principal(v.pool, r) - (if r == s then Short(HarvestDues(v.pool, s, env)) else 0)
    {
      HarvestSettles(v, v.pool, s, env, r);
    }
    OnePrincipal(v, w, s, Short(HarvestDues(v.pool, s, env)));
  }

  /** The exact effect of a call on the slack. */
  lemma CallSlack(v: State, sender: Address, call: Call)
    requires Healthy(v) && Outsider(v, sender)
    ensures Apply(v, sender, call).Some? ==>
              var w := Apply(v, sender, call).value; Slack(w) == Slack(v) + SlackAdded(v, w, call)
  {
    hide Slack, DepositSpec, WithdrawSpec, WithdrawUpToSpec, EmergencyWithdrawSpec, HarvestSpec, AllocateSpec, Wired, FeeOn;
    if Apply(v, sender, call).Some? {
      var w := Apply(v, sender, call).value;
      match call {
        case Deposit(amount) => DepositSlack(v, sender, amount);
        case Withdraw(amount) => WithdrawSlack(v, sender, amount);
        case WithdrawUpTo(amount) => WithdrawUpToSlack(v, sender, amount);
        case Allocate =>
          AllocateOnlyByOwner(v, sender);
          AllocateKeepsReserve(v);
          SameStrategies(v, w);
        case Harvest(env) => HarvestSlack(v, sender, env);
        case HarvestStrategy(s, env) => HarvestStrategySlack(v, sender, s, env);
        case EmergencyWithdraw => EmergencySlack(v, sender);
        case _ => SameStrategies(v, w);
      }
    }
  }

  lemma AllocateOnlyByOwner(v: State, sender: Address)
    ensures AllocateSpec(v, sender).Some? ==> sender == v.owner
  {
  }

  /** Strategies' storage changes only in a harvest. */
  lemma CallKeepsStrategies(v: State, sender: Address, call: Call)
    requires Healthy(v) && Apply(v, sender, call).Some? && !call.Harvest? && !call.HarvestStrategy?
    ensures var w := Apply(v, sender, call).value;
            w.pool.strats == v.pool.strats && w.self == v.self && w.feeDistributor == v.feeDistributor
  {
    hide Transfer, SharesFor, AssetsFor, RecallShortfall, AllocateLoop;
    match call
    case Withdraw(amount) =>
      var b := Burn(v, sender, SharesFor(v, amount), amount).value;
      WiredFollows(v, v.pool, b);
      RecallIsBounded(b, amount);
    case WithdrawUpTo(amount) => RecallIsBounded(v, Wanted(v, sender, amount));
    case _ =>
  }

  lemma CallKeepsHealthy(v: State, sender: Address, call: Call)
    requires Healthy(v) && Apply(v, sender, call).Some?
    requires call.AddStrategy? ==> call.strategy in v.pool.strats
    ensures var w := Apply(v, sender, call).value;
            Healthy(w) && w.self == v.self && w.feeDistributor == v.feeDistributor && w.pool.strats.Keys == v.pool.strats.Keys
  {
    var w := Apply(v, sender, call).value;
    match call
    case Harvest(env) =>
      HarvestCreditsWhatLanded(v, sender, env);
      HarvestFollowsDues(v, sender, env, 0);
    case HarvestStrategy(s, env) =>
      HarvestOnce(v, v.pool, s, env);
      WiredFollows(v, w.pool, w);
    case _ =>
      CallKeepsStrategies(v, sender, call);
      WiredFollows(v, v.pool, w);
      CallSetsStrategies(v, sender, call);
  }

  lemma CallSetsStrategies(v: State, sender: Address, call: Call)
    requires Apply(v, sender, call).Some?
    ensures var w := Apply(v, sender, call).value;
            && w.strategies == (if call.AddStrategy? then v.strategies + {call.strategy} else v.strategies)
            && w.performanceFee == (if call.SetPerformanceFee? then call.fee else v.performanceFee)
    ensures call.SetPerformanceFee? ==> call.fee <= BPS
  {
    hide Transfer, SharesFor, AssetsFor, RecallShortfall, AllocateLoop, HarvestLoop, HarvestOne, FeeOn, LiveCount;
  }

  function Unbooked(w: World): int {
    w.arrived + w.writtenOff + w.swept - w.credited - w.unpaid
  }

  /** From `w` to `x` the slack changed by what the history took down, and the configuration stayed. */
  ghost predicate StaysExact(w: World, x: World) {
    && Healthy(x.v)
    && x.v.self == w.v.self && x.v.feeDistributor == w.v.feeDistributor && x.v.pool.strats.Keys == w.v.pool.strats.Keys
    && Slack(x.v) - Slack(w.v) == Unbooked(x) - Unbooked(w)
  }

  lemma VaultCallSlack(w: World, e: Event)
    requires Healthy(w.v) && Admissible(w.v, e) && e.CallVault?
    ensures StaysExact(w, Step(w, e))
  {
    hide Slack, Apply, Healthy, ShortInCall;
    if Apply(w.v, e.sender, e.call).Some? {
      CallSlack(w.v, e.sender, e.call);
      CallKeepsHealthy(w.v, e.sender, e.call);
      ShortOnlyInHarvests(w.v, e.call);
    }
  }

  lemma ShortOnlyInHarvests(v: State, call: Call)
    ensures !call.Harvest? && !call.HarvestStrategy? ==> ShortInCall(v, call) == 0
  {
  }

  /** A strategy called by anyone but the vault settles funding at most: its principal moves only by what the settlement
    * was paid beyond or short of what it booked, and no token of the protocol leaves. */
  lemma OutsiderMovesNoPrincipal(v: State, sender: Address, s: Address, now: nat, call: DN.Call)
    requires Wired(v, v.pool) && Outsider(v, sender) && sender != 0 && s in v.pool.strats
    requires DN.Apply(v.pool.token, v.pool.strats[s], s, now, sender, call).Some?
    ensures var r := DN.Apply(v.pool.token, v.pool.strats[s], s, now, sender, call).value;
            var d := v.pool.strats[s];
            && r.d.vault == d.vault && r.d.fundingSource == d.fundingSource && r.d.totalDebt == d.totalDebt
            && At(r.token, s) == At(v.pool.token, s) + DN.Paid(d, now, call)
            && r.d.accruedFunding == d.accruedFunding + DN.Booked(d, now, call)
            && forall a: Address :: a != s && a != d.fundingSource ==> At(r.token, a) == At(v.pool.token, a)
  {
    hide DN.Funding, DN.Clamp;
    assert Outsourced(v, v.pool, s);
  }

  lemma StrategyCallSlack(w: World, e: Event)
    requires Healthy(w.v) && Admissible(w.v, e) && e.CallStrategy?
    ensures StaysExact(w, Step(w, e))
  {
    hide Slack, DN.Booked, DN.Paid;
    var v, d := w.v, w.v.pool.strats[e.s];
    var o := DN.Apply(v.pool.token, d, e.s, e.now, e.sender, e.request);
    if o.Some? {
      OutsiderMovesNoPrincipal(v, e.sender, e.s, e.now, e.request);
      hide DN.Apply;
      var x := Step(w, e).v;
      assert Outsourced(v, v.pool, e.s);
      forall r | r in v.pool.strats && r != e.s ensures Principal(x.pool, r) == Principal(v.pool, r) {
        assert Outsourced(v, v.pool, r);
      }
      OneSettled(v, v.pool, x.pool, e.s);
      WiredFollows(v, x.pool, x);
      OnePrincipal(v, x, e.s, Short(DuesOf(d, e.now, e.request)));
    }
  }

  lemma MoveSlack(w: World, e: Event)
    requires Healthy(w.v) && Admissible(w.v, e) && e.Move?
    ensures StaysExact(w, Step(w, e))
  {
    hide Slack, Wired;
    if Transfer(w.v.pool.token, e.from, e.to, e.amount).Some? {
      TransferSum(w.v.pool.strats.Keys, w.v.pool.token, e.from, e.to, e.amount);
      SameStrategies(w.v, Step(w, e).v);
      WiredFollows(w.v, w.v.pool, Step(w, e).v);
    }
  }

  lemma RewireSlack(w: World, e: Event)
    requires Healthy(w.v) && Admissible(w.v, e) && e.Rewire?
    ensures StaysExact(w, Step(w, e))
  {
    hide Slack;
    var v, x := w.v, Step(w, e).v;
    OnePrincipal(v, x, e.s, 0);
    forall r | r in x.pool.strats ensures Outsourced(x, x.pool, r) {
      assert Outsourced(v, v.pool, r);
    }
  }

  lemma StepSlack(w: World, e: Event)
    requires Healthy(w.v) && Admissible(w.v, e)
    ensures StaysExact(w, Step(w, e))
  {
    hide StaysExact, Healthy, Admissible, Step;
    match e
    case CallVault(_, _) => VaultCallSlack(w, e);
    case CallStrategy(_, _, _, _) => StrategyCallSlack(w, e);
    case Move(_, _, _) => MoveSlack(w, e);
    case Rewire(_, _, _, _) => RewireSlack(w, e);
  }

  /** The books are exact in every run: what backs the vault beyond its promises is what arrived unbooked, was
    * written off or was swept uncredited, less what was credited and what funding was booked unpaid. */
  lemma {:induction false} BooksAreExact(v: State, es: seq<Event>)
    requires Healthy(v) && forall i :: 0 <= i < |es| ==> Admissible(v, es[i])
    ensures var w := Run(Start(v), es);
            && Healthy(w.v)
            && w.v.self == v.self && w.v.feeDistributor == v.feeDistributor && w.v.pool.strats.Keys == v.pool.strats.Keys
            && Slack(w.v) == Slack(v) + Unbooked(w)
  {
    hide Slack;
    if es != [] {
      var before := es[..|es| - 1];
      BooksAreExact(v, before);
      StepSlack(Run(Start(v), before), es[|es| - 1]);
    }
  }

  /** From an exactly backed vault, promises stay backed by tokens exactly as long as the yield that the owner credits
    * and the funding booked unpaid are no more than what arrived unbooked, was written off or swept uncredited. */
  lemma BackedIffCreditsArrived(v: State, es: seq<Event>)
    requires Healthy(v) && Slack(v) == 0 && forall i :: 0 <= i < |es| ==> Admissible(v, es[i])
    ensures var w := Run(Start(v), es);
            Promised(w.v) <= Backing(w.v) <==> w.credited + w.unpaid <= w.arrived + w.writtenOff + w.swept
  {
    BooksAreExact(v, es);
  }

  /** A new vault over empty strategies is such a vault. */
  lemma NewVaultIsExactlyBacked(self: Address, owner: Address, feeDistributor: Address, p: Pool)
    requires Wired(Deployed(self, owner, feeDistributor, p), p) && At(p.token, self) == 0
    requires forall s :: s in p.strats ==> At(p.token, s) == 0 && p.strats[s].accruedFunding == 0
    ensures Healthy(Deployed(self, owner, feeDistributor, p)) && Slack(Deployed(self, owner, feeDistributor, p)) == 0
  {
    SumOfZeros(p.strats.Keys);
    SumSame(p.strats.Keys, Of(p.token), _ => 0);
    SumSame(p.strats.Keys, AccruedOf(p.strats), _ => 0);
  }
}
