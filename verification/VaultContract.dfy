/** The ProYieldVault contract: storage fields updated in the contract's order, loops over the strategy list,
  * every entry point proved against its specification in Vault and against the books kept since deployment. */
module VaultContract {
  import opened Common
  import opened VaultMath
  import opened Vault
  import opened VaultLoops
  import opened VaultCalls
  import opened VaultRuns
  import opened VaultShares

  /** Tokens and promises differ by exactly `unbooked`, and the holders' shares add up. */
  ghost predicate BooksExact(v: State, unbooked: int) {
    Healthy(v) && Slack(v) == unbooked && SharesAddUp(v, v.shares.Keys)
  }

  /** A call keeps the books exact; a strategy that is added must be deployed. */
  lemma CallKeepsBooks(v: State, unbooked: int, sender: Address, call: Call)
    requires BooksExact(v, unbooked) && Outsider(v, sender) && Apply(v, sender, call).Some?
    requires call.AddStrategy? ==> call.strategy in v.pool.strats
    ensures var w := Apply(v, sender, call).value; BooksExact(w, unbooked + SlackAdded(v, w, call))
  {
    hide Apply, Slack, SlackAdded, Healthy;
    CallSlack(v, sender, call);
    CallKeepsHealthy(v, sender, call);
    var us := v.shares.Keys + {sender};
    SumOverKeys(v.shares, sender);
    CallSharesAddUp(v, us, sender, call);
    CallKeepsHolders(v, sender, call);
    var w := Apply(v, sender, call).value;
    SumOverKeys(w.shares, sender);
    assert w.shares.Keys + {sender} == us;
  }

  lemma CallKeepsHolders(v: State, sender: Address, call: Call)
    requires Apply(v, sender, call).Some?
    ensures var w := Apply(v, sender, call).value;
            w.shares.Keys == v.shares.Keys || w.shares.Keys == v.shares.Keys + {sender}
  {
    hide Apply;
    if IsWithdrawal(call) {
      WithdrawalBurnsFloor(v, sender, call);
    } else if call.Deposit? {
      DepositMintsFloor(v, sender, call.amount);
    } else {
      OtherCallsKeepShares(v, sender, call);
    }
  }

  class ProYieldVault {
    const self: Address
    const owner: Address
    const feeDistributor: Address
    var pool: Pool
    var shares: Ledger
    var totalShares: nat
    var totalAssets: nat
    var strategyList: seq<Address>
    var strategies: set<Address>
    var strategyActive: set<Address>
    var performanceFee: nat
    var tvlCap: nat
    var perUserCap: nat
    var depositsPaused: bool
    ghost var unbooked: int // tokens beyond what is promised: what the books do not know, or know too much

    constructor (self: Address, owner: Address, feeDistributor: Address, pool: Pool)
      ensures Abs() == Deployed(self, owner, feeDistributor, pool)
      ensures Wired(Abs(), pool) ==> Exact()
    {
      this.self, this.owner, this.feeDistributor, this.pool := self, owner, feeDistributor, pool;
      shares, totalShares, totalAssets := map[], 0, 0;
      strategyList, strategies, strategyActive := [], {}, {};
      performanceFee, tvlCap, perUserCap, depositsPaused := 1000, 0, 0, false;
      unbooked := Slack(Deployed(self, owner, feeDistributor, pool));
    }

    function Abs(): State
      reads this
    {
      State(self, owner, feeDistributor, pool, shares, totalShares, totalAssets, strategyList, strategies,
            strategyActive, performanceFee, tvlCap, perUserCap, depositsPaused)
    }

    ghost predicate Exact()
      reads this
    {
      BooksExact(Abs(), unbooked)
    }

    /** Take down what a completed call does to the gap between tokens and promises. */
    ghost method Account(before: State, sender: Address, call: Call)
      requires Apply(before, sender, call) == Some(Abs())
      modifies this`unbooked
      ensures unbooked == old(unbooked) + SlackAdded(before, Abs(), call)
      ensures BooksExact(before, old(unbooked)) && Admissible(before, CallVault(sender, call)) ==> Exact()
    {
      hide Apply, SlackAdded, BooksExact;
      unbooked := unbooked + SlackAdded(before, Abs(), call);
      if BooksExact(before, old(unbooked)) && Admissible(before, CallVault(sender, call)) {
        CallKeepsBooks(before, old(unbooked), sender, call);
      }
    }

    method RevertBooks(v: State)
      modifies this`shares, this`totalShares, this`totalAssets, this`pool
      ensures shares == v.shares && totalShares == v.totalShares && totalAssets == v.totalAssets && pool == v.pool
    {
      shares, totalShares, totalAssets, pool := v.shares, v.totalShares, v.totalAssets, v.pool;
    }

    /** Mint at the price before the deposit; while there are shares nobody else's claim falls. */
    method DoDeposit(sender: Address, amount: nat) returns (ok: bool)
      modifies this
      ensures Ends(Apply(old(Abs()), sender, Deposit(amount)), old(Abs()), ok, Abs())
      ensures old(Exact()) && Outsider(old(Abs()), sender) ==> Exact()
      ensures unbooked == old(unbooked)
      ensures old(totalShares) > 0 ==>
                forall a: Address :: a != sender ==> old(MaxWithdraw(Abs(), a)) <= MaxWithdraw(Abs(), a)
      ensures ok && sender != self ==>
                && totalAssets == old(totalAssets) + amount
                && At(shares, sender) - old(At(shares, sender)) == totalShares - old(totalShares)
                && forall a: Address :: At(pool.token, a) == At(old(pool).token, a) + (if a == self then amount else 0)
                                                                              - (if a == sender then amount else 0)
    {
      hide ToShares, ToAssets, BooksExact, Transfer;
      if depositsPaused || amount == 0 { return false; }
      if tvlCap > 0 && totalAssets + amount > tvlCap { return false; }
      if perUserCap > 0 && ToAssets(At(shares, sender), totalShares, totalAssets) + amount > perUserCap { return false; }
      var sh := ToShares(amount, totalShares, totalAssets);
      if sh == 0 { return false; }
      var before := Abs();
      shares := Put(shares, sender, At(shares, sender) + sh);
      totalShares := totalShares + sh;
      totalAssets := totalAssets + amount;
      TransferMoves(pool.token, sender, self, amount);
      var moved := Transfer(pool.token, sender, self, amount);
      if moved.None? { RevertBooks(before); return false; }
      pool := pool.(token := moved.value);
      Account(before, sender, Deposit(amount));
      if before.totalShares > 0 {
        forall a: Address | a != sender ensures MaxWithdraw(before, a) <= MaxWithdraw(Abs(), a) {
          DepositLowersNobody(before, sender, amount, a);
        }
      }
      return true;
    }

    method CountLive() returns (count: nat)
      ensures count == LiveCount(Abs(), strategyList)
    {
      count := 0;
      for i := 0 to |strategyList|
        invariant count + LiveCount(Abs(), strategyList[i..]) == LiveCount(Abs(), strategyList)
      {
        if strategyList[i] in strategies && strategyList[i] in strategyActive {
          count := count + 1;
        }
      }
    }

    method DoAllocate(sender: Address) returns (ok: bool)
      modifies this`pool, this`unbooked
      ensures Ends(Apply(old(Abs()), sender, Allocate), old(Abs()), ok, Abs())
      ensures old(Exact()) && Outsider(old(Abs()), sender) ==> Exact()
      ensures unbooked == old(unbooked)
    {
      hide BooksExact;
      ghost var start := Abs();
      if sender != owner { return false; }
      var balance := At(pool.token, self);
      var reserve := Reserve(totalAssets);
      var deployable := if balance > reserve then balance - reserve else 0;
      if deployable > 0 && |strategyList| > 0 {
        var activeCount := CountLive();
        if activeCount > 0 {
          ok := PayAll(deployable / activeCount);
          if !ok { return false; }
        }
      }
      Account(start, sender, Allocate);
      return true;
    }

    method PayAll(perStrategy: nat) returns (ok: bool)
      modifies this`pool
      ensures match AllocateLoop(old(Abs()), old(pool).token, strategyList, perStrategy)
              case None => !ok && pool == old(pool)
              case Some(t) => ok && pool == old(pool).(token := t)
    {
      ghost var v := Abs();
      var before := pool;
      for i := 0 to |strategyList|
        invariant Abs() == v.(pool := pool) && pool == before.(token := pool.token)
        invariant AllocateLoop(v, pool.token, strategyList[i..], perStrategy)
               == AllocateLoop(v, before.token, strategyList, perStrategy)
      {
        var strategy := strategyList[i];
        if strategy in strategies && strategy in strategyActive && perStrategy > 0 {
          var moved := Transfer(pool.token, self, strategy, perStrategy);
          if moved.None? {
            pool := before; // the revert
            return false;
          }
          pool := pool.(token := moved.value);
        }
      }
      return true;
    }

    method DoRecallShortfall(needed: nat) returns (ok: bool)
      modifies this`pool
      ensures match RecallShortfall(old(Abs()), needed)
              case None => !ok
              case Some(p) => ok && pool == p
    {
      hide RecallFrom, LiveCount;
      var idle: nat := At(pool.token, self);
      if idle >= needed { return true; }
      var missing: nat := needed - idle;
      var activeCount := CountLive();
      if activeCount == 0 { return true; }
      var perStrategy := missing / activeCount + 1;
      ghost var v := Abs();
      var i := 0;
      while i < |strategyList| && missing > 0
        invariant 0 <= i <= |strategyList| && Abs() == v.(pool := pool)
        invariant RecallLoop(v, pool, strategyList[i..], idle, missing, perStrategy) == RecallShortfall(v, needed)
        decreases |strategyList| - i
      {
        var strategy := strategyList[i];
        assert strategyList[i..][1..] == strategyList[i + 1..];
        if strategy in strategies && strategy in strategyActive {
          var recalled := RecallFrom(pool, self, strategy, perStrategy);
          if recalled.None? { return false; }
          pool := recalled.value;
          if At(pool.token, self) < idle { return false; }
          var got := At(pool.token, self) - idle;
          idle := idle + got;
          missing := if got >= missing then 0 else missing - got;
        }
        i := i + 1;
      }
      return true;
    }

    /** Shrink the books before any tokens move. */
    method DoBurn(sender: Address, sh: nat, amount: nat) returns (ok: bool)
      modifies this`shares, this`totalShares, this`totalAssets
      ensures Ends(Burn(old(Abs()), sender, sh, amount), old(Abs()), ok, Abs())
    {
      if sh > At(shares, sender) || sh > totalShares || amount > totalAssets { return false; }
      shares := Put(shares, sender, At(shares, sender) - sh);
      totalShares := totalShares - sh;
      totalAssets := totalAssets - amount;
      return true;
    }

    method DoWithdraw(sender: Address, amount: nat) returns (ok: bool)
      modifies this
      ensures Ends(Apply(old(Abs()), sender, Withdraw(amount)), old(Abs()), ok, Abs())
      ensures old(Exact()) && Outsider(old(Abs()), sender) ==> Exact()
      ensures unbooked == old(unbooked)
      ensures ok && Wired(old(Abs()), old(pool)) && Outsider(old(Abs()), sender) ==>
                totalAssets == old(totalAssets) - amount && PaidTo(old(Abs()), Abs(), sender)
    {
      hide ToShares, RecallShortfall, BooksExact, Wired, PaidTo;
      if amount == 0 || amount > totalAssets { return false; }
      var sh := ToShares(amount, totalShares, totalAssets);
      if sh == 0 { return false; }
      var before := Abs();
      ok := DoBurn(sender, sh, amount);
      if !ok { return false; }
      ok := DoRecallShortfall(amount);
      if !ok { RevertBooks(before); return false; }
      var moved := Transfer(pool.token, self, sender, amount);
      if moved.None? { RevertBooks(before); return false; }
      pool := pool.(token := moved.value);
      Account(before, sender, Withdraw(amount));
      if Wired(before, before.pool) && Outsider(before, sender) { WithdrawPaysCaller(before, sender, amount); }
      return true;
    }

    method DoWithdrawUpTo(sender: Address, amount: nat) returns (ok: bool, paid: nat)
      modifies this
      ensures Ends(Apply(old(Abs()), sender, WithdrawUpTo(amount)), old(Abs()), ok, Abs())
      ensures ok ==> paid == old(totalAssets) - totalAssets
      ensures old(Exact()) && Outsider(old(Abs()), sender) ==> Exact()
      ensures unbooked == old(unbooked)
      ensures ok && Wired(old(Abs()), old(pool)) && Outsider(old(Abs()), sender) ==> PaidTo(old(Abs()), Abs(), sender)
    {
      hide ToShares, ToAssets, RecallShortfall, PayUpTo, BooksExact, Wired, PaidTo;
      var want := ToAssets(At(shares, sender), totalShares, totalAssets);
      if amount < want { want := amount; }
      if amount == 0 || want == 0 { return false, 0; }
      var before := Abs();
      ok := DoRecallShortfall(want);
      if !ok { RevertBooks(before); return false, 0; }
      ok, paid := DoPayUpTo(sender, want);
      if !ok { RevertBooks(before); return false, 0; }
      Account(before, sender, WithdrawUpTo(amount));
      if Wired(before, before.pool) && Outsider(before, sender) { WithdrawUpToPaysCaller(before, sender, amount); }
    }

    method DoPayUpTo(sender: Address, want: nat) returns (ok: bool, paid: nat)
      modifies this`shares, this`totalShares, this`totalAssets, this`pool
      ensures Ends(PayUpTo(old(Abs()), sender, want), old(Abs()), ok, Abs())
      ensures ok ==> paid == old(totalAssets) - totalAssets
    {
      hide ToShares, ToAssets;
      var bal := At(pool.token, self);
      paid := if bal < want then bal else want;
      if paid == 0 { return false, 0; }
      var sh := ToShares(paid, totalShares, totalAssets);
      if sh > At(shares, sender) { sh := At(shares, sender); }
      ok := DoBurn(sender, sh, paid);
      if ok {
        pool := pool.(token := Transfer(pool.token, self, sender, paid).value);
      }
    }

    method DoHarvest(sender: Address, env: Env) returns (ok: bool)
      modifies this
      ensures Ends(Apply(old(Abs()), sender, Harvest(env)), old(Abs()), ok, Abs())
      ensures old(Exact()) && Outsider(old(Abs()), sender) ==> Exact()
      ensures unbooked == old(unbooked) - (if ok then ShortInCall(old(Abs()), Harvest(env)) else 0)
    {
      hide BooksExact, ShortInCall, FeeOn;
      var idleBefore := At(pool.token, self);
      var before := Abs();
      ok := SweepAll(env);
      if !ok || At(pool.token, self) < idleBefore { RevertBooks(before); return false; }
      var totalProfit := At(pool.token, self) - idleBefore;
      var fee := FeeOn(totalProfit, performanceFee);
      if fee > 0 {
        var moved := Transfer(pool.token, self, feeDistributor, fee);
        if moved.None? { RevertBooks(before); return false; }
        pool := pool.(token := moved.value);
      }
      if totalProfit > fee {
        totalAssets := totalAssets + (totalProfit - fee);
      }
      Account(before, sender, Harvest(env));
      return true;
    }

    /** The sweep over the list. What a strategy reverts is skipped; only an address without code stops it. */
    method SweepAll(env: Env) returns (ok: bool)
      modifies this`pool
      ensures match HarvestLoop(old(Abs()), old(pool), strategyList, env)
              case None => !ok
              case Some(p) => ok && pool == p
    {
      hide HarvestOne;
      ghost var v := Abs();
      var len := |strategyList|;
      for i := 0 to len
        invariant Abs() == v.(pool := pool)
        invariant HarvestLoop(v, pool, strategyList[i..], env) == HarvestLoop(v, v.pool, strategyList, env)
      {
        var s := strategyList[i];
        assert strategyList[i..][1..] == strategyList[i + 1..];
        if s in strategies && s in strategyActive {
          if s != self && s !in pool.strats && s !in pool.others { return false; }
          var swept := HarvestOne(pool, self, s, env);
          if swept.Some? { pool := swept.value; }
        }
      }
      return true;
    }

    /** A bare sweep: the books are not told, so what comes in is surplus, less what was booked unpaid. */
    method DoHarvestStrategy(sender: Address, strategy: Address, env: Env) returns (ok: bool)
      modifies this`pool, this`unbooked
      ensures Ends(Apply(old(Abs()), sender, HarvestStrategy(strategy, env)), old(Abs()), ok, Abs())
      ensures old(Exact()) && Outsider(old(Abs()), sender) ==> Exact()
      ensures unbooked == old(unbooked) + (Balance(Abs()) - old(Balance(Abs())))
                          - (if ok then Short(HarvestDues(old(pool), strategy, env)) else 0)
    {
      hide BooksExact, HarvestOne, HarvestDues;
      if sender != owner || strategy !in strategies || strategy !in strategyActive { return false; }
      var swept := HarvestOne(pool, self, strategy, env);
      if swept.None? { return false; }
      ghost var before := Abs();
      pool := swept.value;
      Account(before, sender, HarvestStrategy(strategy, env));
      return true;
    }

    /** Everything idle goes to the owner; the books shrink by it, so the gap to the promises stays. */
    method DoEmergencyWithdraw(sender: Address) returns (ok: bool)
      modifies this
      ensures Ends(Apply(old(Abs()), sender, EmergencyWithdraw), old(Abs()), ok, Abs())
      ensures old(Exact()) && Outsider(old(Abs()), sender) ==> Exact()
      ensures unbooked == old(unbooked)
      ensures ok <==> sender == owner && old(Balance(Abs())) <= old(totalAssets)
      ensures ok && sender != self ==>
                && Balance(Abs()) == 0
                && At(pool.token, sender) == old(At(pool.token, sender)) + old(Balance(Abs()))
                && totalAssets == old(totalAssets) - old(Balance(Abs()))
    {
      hide BooksExact;
      if sender != owner { return false; }
      var before := Abs();
      var balance := At(pool.token, self);
      if balance > 0 {
        pool := pool.(token := Transfer(pool.token, self, sender, balance).value);
        if totalAssets < balance { RevertBooks(before); return false; }
        totalAssets := totalAssets - balance;
      }
      Account(before, sender, EmergencyWithdraw);
      return true;
    }

    /** Everybody's claim shrinks or stays, and the gap to the promises closes by the amount. */
    method DoReportLoss(sender: Address, amount: nat) returns (ok: bool)
      modifies this`totalAssets, this`unbooked
      ensures Ends(Apply(old(Abs()), sender, ReportLoss(amount)), old(Abs()), ok, Abs())
      ensures old(Exact()) && Outsider(old(Abs()), sender) ==> Exact()
      ensures unbooked == old(unbooked) + (if ok then amount else 0)
      ensures forall a: Address :: MaxWithdraw(Abs(), a) <= old(MaxWithdraw(Abs(), a))
    {
      hide BooksExact;
      if sender != owner || amount > totalAssets { return false; }
      ghost var before := Abs();
      totalAssets := totalAssets - amount;
      forall a: Address ensures MaxWithdraw(Abs(), a) <= MaxWithdraw(before, a) {
        ClaimsFollowAssets(Abs(), before, a);
      }
      Account(before, sender, ReportLoss(amount));
      return true;
    }

    /** Nobody's claim shrinks, and what is credited comes out of the surplus. */
    method DoCreditYield(sender: Address, amount: nat) returns (ok: bool)
      modifies this`totalAssets, this`unbooked
      ensures Ends(Apply(old(Abs()), sender, CreditYield(amount)), old(Abs()), ok, Abs())
      ensures old(Exact()) && Outsider(old(Abs()), sender) ==> Exact()
      ensures unbooked == old(unbooked) - (if ok then amount else 0)
      ensures forall a: Address :: old(MaxWithdraw(Abs(), a)) <= MaxWithdraw(Abs(), a)
    {
      hide BooksExact;
      if sender != owner || amount == 0 || At(pool.token, self) < amount { return false; }
      ghost var before := Abs();
      totalAssets := totalAssets + amount;
      forall a: Address ensures MaxWithdraw(before, a) <= MaxWithdraw(Abs(), a) {
        ClaimsFollowAssets(before, Abs(), a);
      }
      Account(before, sender, CreditYield(amount));
      return true;
    }

    /** A listed strategy is live, listed twice if it was there already. */
    method DoAddStrategy(sender: Address, strategy: Address) returns (ok: bool)
      modifies this`strategies, this`strategyActive, this`strategyList, this`unbooked
      ensures Ends(Apply(old(Abs()), sender, AddStrategy(strategy)), old(Abs()), ok, Abs())
      ensures old(Exact()) && Outsider(old(Abs()), sender) && strategy in pool.strats ==> Exact()
      ensures ok ==> Live(Abs(), strategy) && |strategyList| == old(|strategyList|) + 1
    {
      hide BooksExact;
      if sender != owner || strategy == 0 { return false; }
      ghost var before := Abs();
      strategies := strategies + {strategy};
      strategyActive := strategyActive + {strategy};
      strategyList := strategyList + [strategy];
      Account(before, sender, AddStrategy(strategy));
      return true;
    }

    /** Pauses or resumes this strategy alone. */
    method DoSetStrategyActive(sender: Address, strategy: Address, active: bool) returns (ok: bool)
      modifies this`strategyActive, this`unbooked
      ensures Ends(Apply(old(Abs()), sender, SetStrategyActive(strategy, active)), old(Abs()), ok, Abs())
      ensures old(Exact()) && Outsider(old(Abs()), sender) ==> Exact()
      ensures unbooked == old(unbooked)
      ensures ok ==> forall s :: Live(Abs(), s) <==> if s == strategy then active else old(Live(Abs(), s))
    {
      hide BooksExact;
      if sender != owner || strategy !in strategies { return false; }
      ghost var before := Abs();
      strategyActive := if active then strategyActive + {strategy} else strategyActive - {strategy};
      Account(before, sender, SetStrategyActive(strategy, active));
      return true;
    }
  }
}
