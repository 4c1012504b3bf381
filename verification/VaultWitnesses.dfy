/** Runs of the vault from deployment that leave what its documentation promises. */
module VaultWitnesses {
  import opened Common
  import opened VaultMath
  import opened Vault
  import opened VaultLoops
  import opened VaultCalls
  import opened VaultRuns
  import opened VaultShares
  import DN = DeltaNeutral

  /** The vault is new and exactly backed, and every event of the run may happen. */
  ghost predicate FromDeployment(v: State, es: seq<Event>) {
    && v == Deployed(v.self, v.owner, v.feeDistributor, v.pool)
    && Healthy(v) && Slack(v) == 0
    && forall i :: 0 <= i < |es| ==> Admissible(v, es[i])
  }

  lemma NewVaultAlone(v: State, token: Ledger, es: seq<Event>)
    requires v == Deployed(1, 2, 3, Pool(token, map[], {})) && At(token, 1) == 0
    requires forall i :: 0 <= i < |es| ==> Admissible(v, es[i])
    ensures FromDeployment(v, es)
  {
    NewVaultIsExactlyBacked(1, 2, 3, v.pool);
  }

  lemma AloneBacking(v: State)
    requires v.pool.strats == map[]
    ensures Backing(v) == Balance(v) && Promised(v) == v.totalAssets
  {
  }

  // ---- single steps ----

  lemma FirstDeposit(w: World, sender: Address, amount: nat)
    requires w.v.totalShares == 0 && w.v.shares == map[] && !w.v.depositsPaused && w.v.tvlCap == 0
    requires 0 < amount <= At(w.v.pool.token, sender) && sender != w.v.self
    requires w.v.perUserCap == 0 || amount <= w.v.perUserCap
    ensures var x := Step(w, CallVault(sender, Deposit(amount))).v;
            && x == w.v.(shares := map[sender := amount], totalShares := amount, totalAssets := w.v.totalAssets + amount,
                         pool := w.v.pool.(token := x.pool.token))
            && Balance(x) == Balance(w.v) + amount
  {
  }

  lemma Credit(w: World, amount: nat)
    requires 0 < amount <= Balance(w.v)
    ensures Step(w, CallVault(w.v.owner, CreditYield(amount))).v == w.v.(totalAssets := w.v.totalAssets + amount)
  {
  }

  lemma Lose(w: World, amount: nat)
    requires amount <= w.v.totalAssets
    ensures Step(w, CallVault(w.v.owner, ReportLoss(amount))).v == w.v.(totalAssets := w.v.totalAssets - amount)
  {
  }

  lemma Donate(w: World, from: Address, amount: nat)
    requires from != w.v.self && amount <= At(w.v.pool.token, from)
    ensures var x := Step(w, Move(from, w.v.self, amount)).v;
            && x == w.v.(pool := w.v.pool.(token := x.pool.token))
            && Balance(x) == Balance(w.v) + amount
            && forall a: Address :: a != from && a != w.v.self ==> At(x.pool.token, a) == At(w.v.pool.token, a)
  {
  }

  lemma Cap(w: World, cap: nat)
    ensures Step(w, CallVault(w.v.owner, SetCaps(0, cap))).v == w.v.(tvlCap := 0, perUserCap := cap)
  {
  }

  lemma ListFirst(w: World, s: Address)
    requires w.v.strategyList == [] && w.v.strategies == w.v.strategyActive == {} && s != 0
    ensures Step(w, CallVault(w.v.owner, AddStrategy(s))).v
         == w.v.(strategies := {s}, strategyActive := {s}, strategyList := [s])
  {
  }

  lemma AllocateToOne(w: World, s: Address)
    requires Wired(w.v, w.v.pool) && s in w.v.pool.strats && w.v.strategyList == [s] && Live(w.v, s) && Deployable(w.v) > 0
    ensures var x := Step(w, CallVault(w.v.owner, Allocate)).v;
            && x == w.v.(pool := w.v.pool.(token := x.pool.token))
            && Balance(x) == Balance(w.v) - Deployable(w.v)
  {
    hide Wired, Reserve;
    var per := Deployable(w.v);
    assert w.v.strategyList[1..] == [];
    assert LiveCount(w.v, w.v.strategyList) == 1;
    AllInstalmentsMultiply(w.v, w.v.strategyList, per);
    AllocateLoopMoves(w.v, w.v.pool, w.v.strategyList, per);
  }

  // ---- runs of two calls ----

  lemma TwoSteps(w: World, es: seq<Event>)
    requires |es| == 2
    ensures Run(w, es[..1]) == Step(w, es[0]) && Run(w, es) == Step(Step(w, es[0]), es[1])
  {
    FoldStep(Step, w, [], es[0]);
    FoldStep(Step, w, es[..1], es[1]);
    assert [] + [es[0]] == es[..1] && es[..1] + [es[1]] == es;
  }

  /** Crediting yield that never arrived: the promises are backed by half. */
  lemma CreditOutrunsBacking(v: State, es: seq<Event>)
    requires v == Deployed(1, 2, 3, Pool(map[4 := 1000], map[], {}))
    requires es == [CallVault(4, Deposit(1000)), CallVault(2, CreditYield(1000))]
    ensures var w := Run(Start(v), es).v; Promised(w) == 2000 && Backing(w) == 1000
    ensures FromDeployment(v, es)
  {
    hide Run, Step, Promised, Backing, FromDeployment;
    NewVaultAlone(v, v.pool.token, es);
    TwoSteps(Start(v), es);
    FirstDeposit(Start(v), 4, 1000);
    Credit(Run(Start(v), es[..1]), 1000);
    AloneBacking(Run(Start(v), es).v);
  }

  /** A loss of one unit reported right after the first deposit takes the price below one. */
  lemma ReportedLossBreaksFloor(v: State, es: seq<Event>)
    requires v == Deployed(1, 2, 3, Pool(map[4 := 1000], map[], {}))
    requires es == [CallVault(4, Deposit(1000)), CallVault(2, ReportLoss(1))]
    ensures var w := Run(Start(v), es).v; w.totalShares == 1000 && w.totalAssets == 999
    ensures FromDeployment(v, es)
  {
    hide Run, Step, FromDeployment;
    NewVaultAlone(v, v.pool.token, es);
    TwoSteps(Start(v), es);
    FirstDeposit(Start(v), 4, 1000);
    Lose(Run(Start(v), es[..1]), 1);
  }

  /** Once a loss takes all the assets, a claim is left that no call can pay: half the first deposit is still shown as
    * withdrawable and lies idle in the vault, and both withdrawals revert on the books. */
  lemma ClaimAboveBooksIsStuck(v: State, es: seq<Event>)
    requires v == Deployed(1, 2, 3, Pool(map[4 := 1000], map[], {}))
    requires es == [CallVault(4, Deposit(1000)), CallVault(2, ReportLoss(1000))]
    ensures var w := Run(Start(v), es).v;
            && Balance(w) == 1000 && MaxWithdraw(w, 4) == 500
            && forall amount :: Apply(w, 4, WithdrawUpTo(amount)).None? && Apply(w, 4, Withdraw(amount)).None?
    ensures FromDeployment(v, es)
  {
    hide Run, Step, Scale, Apply, FromDeployment;
    NewVaultAlone(v, v.pool.token, es);
    TwoSteps(Start(v), es);
    FirstDeposit(Start(v), 4, 1000);
    Lose(Run(Start(v), es[..1]), 1000);
    ScaleBounds(1000, 1000, 2000);
    var w := Run(Start(v), es).v;
    forall amount ensures Apply(w, 4, WithdrawUpTo(amount)).None? && Apply(w, 4, Withdraw(amount)).None? {
      WithdrawUpToPaidIff(w, 4, amount);
      WithdrawPaidIff(w, 4, amount);
    }
  }

  // ---- longer runs ----

  /** Assets credited to an empty vault go to the next depositor, who ends above the cap. */
  lemma EmptyVaultExceedsCap(v: State, es: seq<Event>)
    requires v == Deployed(1, 2, 3, Pool(map[4 := 1000, 5 := 5000], map[], {}))
    requires es == [Move(5, 1, 5000), CallVault(2, CreditYield(5000)), CallVault(2, SetCaps(0, 1000)),
                    CallVault(4, Deposit(1000))]
    ensures var w := Run(Start(v), es).v; w.perUserCap == 1000 && At(w.shares, 4) == 1000 && MaxWithdraw(w, 4) == 3500
    ensures FromDeployment(v, es)
  {
    hide Run, Step, Scale, FromDeployment;
    NewVaultAlone(v, v.pool.token, es);
    TwoSteps(Start(v), es[..2]);
    OneMore(Start(v), es, 2);
    OneMore(Start(v), es, 3);
    assert es[..2][..1] == es[..1] && es[..4] == es;
    Donate(Start(v), 5, 5000);
    Credit(Run(Start(v), es[..1]), 5000);
    Cap(Run(Start(v), es[..2]), 1000);
    FirstDeposit(Run(Start(v), es[..3]), 4, 1000);
    ScaleBounds(1000, 7000, 2000);
  }

  lemma OneMore(w: World, es: seq<Event>, i: nat)
    requires i < |es|
    ensures Run(w, es[..i + 1]) == Step(Run(w, es[..i]), es[i])
  {
    FoldStep(Step, w, es[..i], es[i]);
    assert es[..i] + [es[i]] == es[..i + 1];
  }

  /** One live strategy without a vault address: at a price of one a claim of 1000 stands against an idle balance of 100,
    * and a request above it reverts instead of paying what is idle. */
  lemma UnwiredStrategyTrapsIdle(v: State, d: DN.Strategy, es: seq<Event>)
    requires d == DN.Strategy(true, 2, 0, 0, 0, 0, 0, 0, 0, map[], 0, 0)
    requires v == Deployed(1, 2, 3, Pool(map[4 := 1000], map[9 := d], {}))
    requires es == [CallVault(2, AddStrategy(9)), CallVault(4, Deposit(1000)), CallVault(2, Allocate)]
    ensures var w := Run(Start(v), es).v;
            && Balance(w) == 100 && MaxWithdraw(w, 4) == 1000 && AtFloor(w)
            && Apply(w, 4, WithdrawUpTo(500)).None? && Apply(w, 4, WithdrawUpTo(100)).Some?
    ensures FromDeployment(v, es)
  {
    hide Run, Step, Scale, Apply, Slack;
    NewVaultIsExactlyBacked(1, 2, 3, v.pool);
    TwoSteps(Start(v), es[..2]);
    OneMore(Start(v), es, 2);
    assert es[..2][..1] == es[..1] && es[..3] == es;
    ListFirst(Start(v), 9);
    FirstDeposit(Run(Start(v), es[..1]), 4, 1000);
    ScaleBounds(1000, RESERVE_BPS, Vault.BPS);
    AllocateToOne(Run(Start(v), es[..2]), 9);
    ScaleBounds(1000, 2000, 2000);
    var w := Run(Start(v), es).v;
    WithdrawUpToPaidIff(w, 4, 500);
    WithdrawUpToPaidIff(w, 4, 100);
    assert Deaf(w, w.pool, w.strategyList[0]) && w.strategyList[..0] == [];
  }
}
