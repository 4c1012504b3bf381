/** Runs of the vault and PYDFeeDiscount together, over one USDC ledger: every snapshot reads the shares the vault has
  * reached, every claim moves USDC that the vault's accounts see. */
module JointRuns {
  import opened Common
  import opened FeeDiscount
  import D = FeeDiscountRuns
  import V = Vault
  import R = VaultRuns
  import VaultCalls
  import VaultLoops
  import VaultShares

  /** Something happens to the vault or its strategies; somebody calls PYDFeeDiscount; PYD moves elsewhere. What a
    * snapshot carries is replaced by what the vault answers. */
  datatype Event =
    | AtVault(event: R.Event)
    | AtDiscount(sender: Address, call: Call)
    | AtPYD(pyd: Ledger, donated: nat)

  datatype World = World(vault: R.World, fees: D.World)

  /** A snapshot reads balances and total from the vault. */
  function Answered(v: V.State, call: Call): Call {
    if call.SnapshotHarvest? then SnapshotHarvest(v.shares, v.totalShares) else call
  }

  ghost function Step(w: World, e: Event): World {
    match e
    case AtVault(event) =>
      var x := R.Step(w.vault, event);
      World(x, D.Step(w.fees, D.Outside(w.fees.s.pyd, 0, x.v.pool.token)))
    case AtDiscount(sender, call) =>
      World(if call.ClaimRebate? then Paid(w.vault, w.fees.s, sender) else w.vault,
            D.Step(w.fees, D.Act(sender, Answered(w.vault.v, call))))
    case AtPYD(pyd, donated) => w.(fees := D.Step(w.fees, D.Outside(pyd, donated, w.fees.s.usdc)))
  }

  /** The vault's side of a claim. */
  ghost function Paid(vault: R.World, s: State, sender: Address): R.World {
    if Claimable(s, sender) == 0 then vault
    else R.Step(vault, R.Move(s.self, sender, Claimable(s, sender)))
  }

  ghost function Run(w: World, es: seq<Event>): World {
    Fold(Step, w, es)
  }

  /** Callers are accounts of `us`; the vault's side of an event is one its own runs admit. */
  ghost predicate Admissible(v: V.State, discount: Address, us: set<Address>, e: Event) {
    match e
    case AtVault(event) => R.Admissible(v, event) && VaultShares.CallersIn(us, event)
    case AtDiscount(sender, _) => sender in us && sender != discount
    case AtPYD(_, _) => true
  }

  /** Both ledgers are one, and each side keeps the invariant of its own runs. */
  ghost predicate Joined(w: World, v: V.State, us: set<Address>) {
    && w.fees.s.usdc == w.vault.v.pool.token
    && D.Sound(w.fees, us)
    && VaultShares.SharesAddUp(w.vault.v, us)
    && VaultCalls.Healthy(w.vault.v)
    && w.vault.v.self == v.self && w.vault.v.feeDistributor == v.feeDistributor
    && w.vault.v.pool.strats.Keys == v.pool.strats.Keys
    && R.Slack(w.vault.v) == R.Slack(v) + R.Unbooked(w.vault)
  }

  /** The vault's part of `Joined`, after an event its own runs admit. */
  lemma VaultKeeps(w: World, v: V.State, us: set<Address>, event: R.Event)
    requires R.Admissible(v, event) && VaultShares.CallersIn(us, event)
    ensures Joined(w, v, us) ==>
            var x := R.Step(w.vault, event);
            && VaultShares.SharesAddUp(x.v, us)
            && VaultCalls.Healthy(x.v)
            && x.v.self == v.self && x.v.feeDistributor == v.feeDistributor && x.v.pool.strats.Keys == v.pool.strats.Keys
            && R.Slack(x.v) == R.Slack(v) + R.Unbooked(x)
  {
    hide VaultCalls.Healthy, R.Slack, R.Step, VaultShares.SharesAddUp, D.Sound;
    if Joined(w, v, us) {
      R.StepSlack(w.vault, event);
      VaultShares.EventSharesAddUp(w.vault, us, event);
    }
  }

  lemma VaultEventJoins(w: World, v: V.State, us: set<Address>, event: R.Event)
    requires R.Admissible(v, event) && VaultShares.CallersIn(us, event)
    ensures Joined(w, v, us) ==>
              Joined(Step(w, AtVault(event)), v, us) && Step(w, AtVault(event)).fees.s.self == w.fees.s.self
  {
    hide VaultCalls.Healthy, R.Slack, R.Step, VaultShares.SharesAddUp, D.Sound;
    VaultKeeps(w, v, us, event);
    if !Joined(w, v, us) { return; }
    var x := R.Step(w.vault, event);
    D.StepSound(w.fees, us, D.Outside(w.fees.s.pyd, 0, x.v.pool.token));
  }

  lemma DiscountCallJoins(w: World, v: V.State, us: set<Address>, sender: Address, call: Call)
    requires Joined(w, v, us) && sender in us && sender != w.fees.s.self && VaultCalls.Outsider(v, w.fees.s.self)
    ensures Joined(Step(w, AtDiscount(sender, call)), v, us)
    ensures Step(w, AtDiscount(sender, call)).fees.s.self == w.fees.s.self
  {
    hide VaultCalls.Healthy, R.Slack, R.Step, D.Sound, D.Step;
    D.StepSound(w.fees, us, D.Act(sender, Answered(w.vault.v, call)));
    ClaimsMoveBoth(w, sender, call);
    if call.ClaimRebate? && Claimable(w.fees.s, sender) > 0 {
      VaultKeeps(w, v, us, R.Move(w.fees.s.self, sender, Claimable(w.fees.s, sender)));
    }
  }

  /** Only a claim moves USDC, the same on both sides. */
  lemma ClaimsMoveBoth(w: World, sender: Address, call: Call)
    requires w.fees.s.usdc == w.vault.v.pool.token
    ensures var x := Step(w, AtDiscount(sender, call)); x.fees.s.usdc == x.vault.v.pool.token
  {
    hide AccrueLoop, D.Accrual, ReturnStake;
    ReturnKeepsUSDC(w.fees.s, sender);
  }

  lemma ReturnKeepsUSDC(s: State, sender: Address)
    ensures forall amount: nat :: amount <= At(s.stakedBy, sender) && ReturnStake(s, sender, amount).Some? ==>
              ReturnStake(s, sender, amount).value.usdc == s.usdc
  {
  }

  lemma {:induction false} AlwaysJoined(w: World, v: V.State, us: set<Address>, es: seq<Event>)
    requires Joined(w, v, us) && VaultCalls.Outsider(v, w.fees.s.self)
    requires forall i :: 0 <= i < |es| ==> Admissible(v, w.fees.s.self, us, es[i])
    ensures Joined(Run(w, es), v, us) && Run(w, es).fees.s.self == w.fees.s.self
  {
    hide Joined, Step;
    if es != [] {
      var before, e := es[..|es| - 1], es[|es| - 1];
      AlwaysJoined(w, v, us, before);
      var x := Run(w, before);
      match e
      case AtVault(event) => VaultEventJoins(x, v, us, event);
      case AtDiscount(sender, call) => DiscountCallJoins(x, v, us, sender, call);
      case AtPYD(pyd, donated) => PYDJoins(x, v, us, pyd, donated);
    }
  }

  lemma PYDJoins(w: World, v: V.State, us: set<Address>, pyd: Ledger, donated: nat)
    requires Joined(w, v, us)
    ensures Joined(Step(w, AtPYD(pyd, donated)), v, us) && Step(w, AtPYD(pyd, donated)).fees.s.self == w.fees.s.self
  {
    hide VaultCalls.Healthy, R.Slack, VaultShares.SharesAddUp, D.Sound;
    D.StepSound(w.fees, us, D.Outside(pyd, donated, w.fees.s.usdc));
  }

  /** From the deployment of both contracts over one USDC ledger, whatever happens to vault, strategies and stakers: all
    * rebates ever claimed or outstanding are at most the cap's share of the highest fee balance snapshotted, and the
    * vault's backing differs from its promises by exactly what its history took down. */
  lemma RebatesAndBooksTogether(v: V.State, discount: State, us: set<Address>, es: seq<Event>)
    requires v == V.Deployed(v.self, v.owner, v.feeDistributor, v.pool) && VaultCalls.Healthy(v)
    requires discount == Deployed(discount.self, discount.owner, v.feeDistributor, discount.pyd, v.pool.token)
    requires VaultCalls.Outsider(v, discount.self)
    requires forall i :: 0 <= i < |es| ==> Admissible(v, discount.self, us, es[i])
    ensures var w := Run(World(R.Start(v), D.World(discount, 0, 0)), es);
            && BPS * (w.fees.claimed + Sum(us, Of(w.fees.s.rebateOf))) <= MAX_TIER_BPS * w.fees.s.lastFeeSnapshot
            && w.fees.claimed + Sum(us, Of(w.fees.s.rebateOf)) == w.fees.accrued
            && Sum(us, Of(w.vault.v.shares)) == w.vault.v.totalShares
            && R.Slack(w.vault.v) == R.Slack(v) + R.Unbooked(w.vault)
            && w.fees.s.usdc == w.vault.v.pool.token
  {
    hide Run, VaultCalls.Healthy, R.Slack;
    SumOfZeros(us);
    SumSame(us, Of(map[]), _ => 0);
    D.DeployedSound(discount.self, discount.owner, v.feeDistributor, discount.pyd, v.pool.token, us);
    AlwaysJoined(World(R.Start(v), D.World(discount, 0, 0)), v, us, es);
  }
}
