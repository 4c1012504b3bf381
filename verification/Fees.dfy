/** FeeDistributor and the recycling run: fees are split, the depositors' part is routed to the vault and then
  * credited, the rest is routed out. */
module Fees {
  import opened Common
  import opened VaultMath
  import opened Vault
  import opened VaultLoops
  import opened VaultCalls
  import opened VaultRuns

  /** The distributor's bookkeeping; its tokens are at `self` in the token ledger. */
  datatype Distributor = Distributor(self: Address, owner: Address, totalFeesReceived: nat, totalFeesRouted: nat, routedTo: Ledger)

  datatype Routed = Routed(fd: Distributor, token: Ledger, amount: nat)

  /** The received total is a high-water mark of the balance. */
  function ReceiveFees(fd: Distributor, token: Ledger): (r: Distributor)
    ensures At(token, fd.self) <= r.totalFeesReceived && fd.totalFeesReceived <= r.totalFeesReceived
  {
    if At(token, fd.self) > fd.totalFeesReceived then fd.(totalFeesReceived := At(token, fd.self)) else fd
  }

  /** Route up to the balance. */
  function Route(fd: Distributor, token: Ledger, sender: Address, to: Address, amount: nat): Option<Routed> {
    var clamped := if amount > At(token, fd.self) then At(token, fd.self) else amount;
    if sender != fd.owner || to == 0 || clamped == 0 then None
    else
      match Transfer(token, fd.self, to, clamped)
      case None => None
      case Some(t) =>
        Some(Routed(fd.(totalFeesRouted := fd.totalFeesRouted + clamped,
                        routedTo := Put(fd.routedTo, to, At(fd.routedTo, to) + clamped)), t, clamped))
  }

  /** The routed total is the sum over destinations, and a route moves exactly what it books. */
  lemma RouteBooksWhatMoves(fd: Distributor, token: Ledger, sender: Address, to: Address, amount: nat, us: set<Address>)
    requires to in us && to != fd.self && Route(fd, token, sender, to, amount).Some?
    requires Sum(us, Of(fd.routedTo)) == fd.totalFeesRouted
    ensures var r := Route(fd, token, sender, to, amount).value;
            && Sum(us, Of(r.fd.routedTo)) == r.fd.totalFeesRouted
            && At(r.token, fd.self) + (r.fd.totalFeesRouted - fd.totalFeesRouted) == At(token, fd.self)
            && At(r.token, to) - At(token, to) == r.amount <= amount
  {
    hide Sum, Of;
    var r := Route(fd, token, sender, to, amount).value;
    TransferMoves(token, fd.self, to, r.amount);
    PutSum(us, fd.routedTo, to, At(fd.routedTo, to) + r.amount);
  }

  // ---- the recycling run ----

  datatype Policy = Policy(boostPct: nat, treasuryPct: nat, insurancePct: nat, minAmount: nat,
                           treasury: Address, insurance: Address)

  /** The part in whole percent, rounded down. */
  function Percent(bal: nat, pct: nat): (part: nat)
    ensures part * 100 <= bal * pct < (part + 1) * 100
  {
    ScaleBounds(bal, pct, 100);
    Scale(bal, pct, 100)
  }

  /** The two floor parts fit, so the remainder is a third non-negative part. */
  lemma SplitFits(bal: nat, a: nat, b: nat)
    requires a + b <= 100
    ensures Percent(bal, a) + Percent(bal, b) <= bal
  {
    ScaleBounds(bal, a, 100);
    ScaleBounds(bal, b, 100);
    assert bal * a + bal * b == bal * (a + b);
    assert bal * (a + b) <= bal * 100 by { if bal > 0 { Cancel(a + b, 100, bal); } }
  }

  datatype Ending = BadPolicy | BelowMinimum | Aborted | CreditFailed | Done

  /** Sending tokens of the distributor elsewhere changes the vault's slack only if they go into the pool. */
  lemma RouteSlack(v: State, w: State, to: Address, amount: nat)
    requires Healthy(v) && Transfer(v.pool.token, v.feeDistributor, to, amount).Some?
    requires w == v.(pool := v.pool.(token := Transfer(v.pool.token, v.feeDistributor, to, amount).value))
    ensures Slack(w) == Slack(v) + (if InPool(v, to) then amount else 0)
    ensures Healthy(w)
  {
    hide Slack;
    TransferSum(v.pool.strats.Keys, v.pool.token, v.feeDistributor, to, amount);
    SameStrategies(v, w);
    WiredFollows(v, v.pool, w);
  }

  /** Treasury and insurance are neither the distributor nor part of the vault's pool. */
  predicate PaysOutside(v: State, policy: Policy) {
    && !InPool(v, policy.treasury) && policy.treasury != v.feeDistributor
    && !InPool(v, policy.insurance) && policy.insurance != v.feeDistributor
  }

  /** What a run needs to finish: the distributor's owner signs what is routed, the vault's owner the credit, at least one
    * credit attempt gets through, and every part has somewhere to go. */
  predicate CanFinish(v: State, fd: Distributor, signer: Address, policy: Policy, lands: (bool, bool)) {
    var bal := At(v.pool.token, fd.self);
    var boost, treasury := Percent(bal, policy.boostPct), Percent(bal, policy.treasuryPct);
    && (boost > 0 ==> signer == v.owner && (lands.0 || lands.1))
    && (bal > 0 ==> signer == fd.owner)
    && (treasury > 0 ==> policy.treasury != 0)
    && (bal > boost + treasury ==> policy.insurance != 0)
  }

  lemma VaultIsSomewhere(v: State)
    requires Healthy(v)
    ensures v.self != 0
  {
  }

  class FeeDistributor {
    const self: Address
    const owner: Address
    var token: Ledger
    var totalFeesReceived: nat
    var totalFeesRouted: nat
    var routedTo: Ledger

    constructor (self: Address, owner: Address, token: Ledger)
      ensures Valid()
      ensures Abs() == Distributor(self, owner, 0, 0, map[]) && this.token == token
    {
      this.self, this.owner, this.token := self, owner, token;
      totalFeesReceived, totalFeesRouted, routedTo := 0, 0, map[];
    }

    function Abs(): Distributor
      reads this
    {
      Distributor(self, owner, totalFeesReceived, totalFeesRouted, routedTo)
    }

    /** Every routed token has its destination. */
    ghost predicate Valid()
      reads this
    {
      Sum(routedTo.Keys, Of(routedTo)) == totalFeesRouted
    }

    /** The received total is the highest balance at any call. */
    method DoReceiveFees()
      requires Valid()
      modifies this`totalFeesReceived
      ensures Valid()
      ensures old(totalFeesReceived) <= totalFeesReceived && At(token, self) <= totalFeesReceived
      ensures totalFeesReceived == old(totalFeesReceived) || totalFeesReceived == At(token, self)
      ensures Abs() == ReceiveFees(old(Abs()), token)
    {
      var bal := At(token, self);
      if bal > totalFeesReceived { totalFeesReceived := bal; }
    }

    /** What leaves is booked to where it goes, so balance and routed total together stay. */
    method DoRoute(sender: Address, to: Address, amount: nat) returns (ok: bool)
      requires Valid()
      modifies this
      ensures Valid()
      ensures ok <==> sender == owner && to != 0 && amount > 0 && old(At(token, self)) > 0
      ensures to != self ==> At(token, self) + totalFeesRouted == old(At(token, self) + totalFeesRouted)
      ensures At(routedTo, to) - old(At(routedTo, to)) == totalFeesRouted - old(totalFeesRouted)
                                                       == if ok then Least(amount, old(At(token, self))) else 0
      ensures to != self ==> At(token, to) - old(At(token, to)) == totalFeesRouted - old(totalFeesRouted)
      ensures match Route(old(Abs()), old(token), sender, to, amount)
              case None => !ok && Abs() == old(Abs()) && token == old(token)
              case Some(r) => ok && Abs() == r.fd && token == r.token
    {
      hide Sum, Of, Transfer;
      if sender != owner || to == 0 { return false; }
      var sent := amount;
      if sent > At(token, self) { sent := At(token, self); }
      if sent == 0 { return false; }
      TransferMoves(token, self, to, sent);
      token := Transfer(token, self, to, sent).value;
      totalFeesRouted := totalFeesRouted + sent;
      RoutedSum(routedTo, to, At(routedTo, to) + sent);
      routedTo := Put(routedTo, to, At(routedTo, to) + sent);
      return true;
    }
  }

  lemma RoutedSum(m: Ledger, to: Address, v: nat)
    ensures Sum(Put(m, to, v).Keys, Of(Put(m, to, v))) == Sum(m.Keys, Of(m)) + v - At(m, to)
  {
    hide Sum, Of;
    SumOverKeys(m, to);
    PutSum(m.Keys + {to}, m, to, v);
    assert Put(m, to, v).Keys == m.Keys + {to};
  }

  class Recycler {
    var v: State
    var fd: Distributor

    constructor (v: State, fd: Distributor)
      ensures this.v == v && this.fd == fd
    {
      this.v, this.fd := v, fd;
    }

    ghost predicate Valid()
      reads this
    {
      Healthy(v) && fd.self == v.feeDistributor && fd.self != v.self
    }

    /** Tokens moved, the vault's books did not. */
    twostate predicate OnlyTokensMoved()
      reads this
    {
      Valid() && fd.self == old(fd.self) && v == old(v).(pool := old(v).pool.(token := v.pool.token))
    }

    method RouteTo(signer: Address, to: Address, amount: nat) returns (ok: bool)
      requires Valid() && amount <= At(v.pool.token, fd.self)
      modifies this
      ensures OnlyTokensMoved()
      ensures !ok ==> v == old(v)
      ensures ok ==> Slack(v) == old(Slack(v)) + (if InPool(v, to) then amount else 0)
      ensures ok ==> forall a: Address :: At(v.pool.token, a) == At(old(v).pool.token, a)
                       + (if a == to then amount else 0) - (if a == fd.self then amount else 0)
      ensures ok <==> signer == old(fd.owner) && to != 0 && amount > 0
      ensures fd.owner == old(fd.owner)
    {
      hide Slack, Healthy;
      var r := Route(fd, v.pool.token, signer, to, amount);
      if r.None? { return false; }
      ghost var before := v;
      if to != fd.self { TransferMoves(v.pool.token, fd.self, to, amount); }
      v, fd := v.(pool := v.pool.(token := r.value.token)), r.value.fd;
      RouteSlack(before, v, to, amount);
      return true;
    }

    method Credit(signer: Address, amount: nat, lands: bool) returns (ok: bool)
      requires Valid()
      modifies this`v
      ensures Valid()
      ensures !ok ==> v == old(v)
      ensures ok ==> v == old(v).(totalAssets := old(v).totalAssets + amount) && Slack(v) == old(Slack(v)) - amount
      ensures ok <==> lands && signer == old(v).owner && 0 < amount <= Balance(old(v))
    {
      hide Slack;
      var w := Apply(v, signer, CreditYield(amount));
      if !lands || w.None? { return false; }
      ghost var before := v;
      v := w.value;
      SameStrategies(before, v);
      WiredFollows(before, before.pool, v);
      return true;
    }

    /** Route the boost into the vault, then credit it, retrying the credit once. A failed credit leaves the boost in
      * the vault as unbooked backing. */
    method BoostDepositors(signer: Address, boost: nat, lands: (bool, bool)) returns (ending: Ending)
      requires Valid() && 0 < boost <= At(v.pool.token, fd.self)
      modifies this
      ensures Valid() && fd.self == old(fd.self) && v.self == old(v).self && v.pool.strats == old(v).pool.strats
      ensures fd.owner == old(fd.owner)
      ensures ending.Done? <==> signer == old(v).owner && signer == old(fd.owner) && (lands.0 || lands.1)
      ensures ending.Aborted? <==> signer != old(fd.owner)
      ensures ending.Done? || ending.CreditFailed? || ending.Aborted?
      ensures !ending.Aborted? ==>
                && v.totalAssets == old(v).totalAssets + (if ending.Done? then boost else 0)
                && Slack(v) == old(Slack(v)) + (if ending.Done? then 0 else boost)
                && forall a: Address :: At(v.pool.token, a) == At(old(v).pool.token, a)
                     + (if a == v.self then boost else 0) - (if a == fd.self then boost else 0)
    {
      hide Slack, Healthy;
      VaultIsSomewhere(v);
      var routed := RouteTo(signer, v.self, boost);
      if !routed { return Aborted; }
      var taPre := v.totalAssets;
      var credited := Credit(signer, boost, lands.0);
      if !credited {
        credited := Credit(signer, boost, lands.1);
        if !credited { return CreditFailed; }
      }
      if v.totalAssets - taPre != boost { return Aborted; }
      return Done;
    }

    /** One recycling run. `lands` says for each of the two attempts whether the credit transaction gets through. */
    method Recycle(signer: Address, policy: Policy, lands: (bool, bool)) returns (ending: Ending)
      requires Valid()
      modifies this
      ensures Valid()
      ensures ending.BadPolicy? <==> policy.boostPct + policy.treasuryPct + policy.insurancePct != 100
      ensures ending.BelowMinimum? <==> !ending.BadPolicy? && At(old(v).pool.token, old(fd.self)) < policy.minAmount
      ensures ending.Done? <==> !ending.BadPolicy? && !ending.BelowMinimum?
                                && CanFinish(old(v), old(fd), signer, policy, lands)
      ensures signer == old(v).owner && (lands.0 || lands.1) ==> !ending.CreditFailed?
      ensures ending.BadPolicy? || ending.BelowMinimum? ==> v == old(v)
      ensures ending.CreditFailed? || (ending.Done? && PaysOutside(old(v), policy)) ==>
                var bal := At(old(v).pool.token, old(fd.self));
                var boost := Percent(bal, policy.boostPct);
                && Balance(v) == Balance(old(v)) + boost
                && v.totalAssets == old(v).totalAssets + (if ending.Done? then boost else 0)
                && Slack(v) == old(Slack(v)) + (if ending.Done? then 0 else boost)
                && At(v.pool.token, fd.self) == (if ending.Done? then 0 else bal - boost)
      ensures ending.Done? && PaysOutside(old(v), policy) && policy.treasury != policy.insurance ==>
                var bal := At(old(v).pool.token, old(fd.self));
                var treasury := Percent(bal, policy.treasuryPct);
                && At(v.pool.token, policy.treasury) == At(old(v).pool.token, policy.treasury) + treasury
                && At(v.pool.token, policy.insurance) == At(old(v).pool.token, policy.insurance)
                   + bal - Percent(bal, policy.boostPct) - treasury
      ensures ending.Done? && PaysOutside(old(v), policy) && policy.treasury == policy.insurance ==>
                var bal := At(old(v).pool.token, old(fd.self));
                At(v.pool.token, policy.treasury) == At(old(v).pool.token, policy.treasury) + bal - Percent(bal, policy.boostPct)
    {
      hide Slack, Healthy, Percent;
      fd := ReceiveFees(fd, v.pool.token);
      if policy.boostPct + policy.treasuryPct + policy.insurancePct != 100 { return BadPolicy; }
      var bal := At(v.pool.token, fd.self);
      if bal < policy.minAmount { return BelowMinimum; }
      var boost := Percent(bal, policy.boostPct);
      var treasury := Percent(bal, policy.treasuryPct);
      SplitFits(bal, policy.boostPct, policy.treasuryPct);
      var insurance := bal - boost - treasury;
      if boost > 0 {
        ending := BoostDepositors(signer, boost, lands);
        if !ending.Done? { return ending; }
      }
      if treasury > 0 {
        var routed := RouteTo(signer, policy.treasury, treasury);
        if !routed { return Aborted; }
      }
      if insurance > 0 {
        var routed := RouteTo(signer, policy.insurance, insurance);
        if !routed { return Aborted; }
      }
      return Done;
    }
  }
}
